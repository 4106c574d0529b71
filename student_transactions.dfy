/** The student's transactions page: two tabs, the student's online payments
    and the cash they handed to their CR, each newest month first and paged
    eight at a time with its own page number. A pending online payment can
    have its amount corrected or be deleted. The edit and delete helpers
    mirror those of `CRTransactions` over this page's own record type. */
module StudentTransactions {
  import opened Common
  import opened Paging

  const ItemsPerPage: nat := 8

  /** An online payment; `amount` is a number as `parseFloat` yields it and
      `month` a timestamp. */
  datatype OnlineTx = OnlineTx(id: int, amount: Number, month: int, status: string)

  /** A cash payment handed to `handedTo`. */
  datatype CashTx = CashTx(id: int, amount: int, month: int, handedTo: string)

  function OnlineMonth(t: OnlineTx): int
  {
    t.month
  }

  function CashMonth(t: CashTx): int
  {
    t.month
  }

  /** `sortTransactionsByMonth` on the online list: a copy, newest first. */
  function SortedOnline(s: seq<OnlineTx>): seq<OnlineTx>
  {
    SortDesc(s, OnlineMonth)
  }

  /** `sortTransactionsByMonth` on the cash list. */
  function SortedCash(s: seq<CashTx>): seq<CashTx>
  {
    SortDesc(s, CashMonth)
  }

  /** Both tabs show their whole list, newest month first, every payment as
      often as it occurs, and payments of the same month in the order the
      list holds them. */
  lemma SortedByMonthSpec(online: seq<OnlineTx>, cash: seq<CashTx>)
    ensures SortedDesc(SortedOnline(online), OnlineMonth) && multiset(SortedOnline(online)) == multiset(online)
    ensures forall m :: Filter(SortedOnline(online), KeyIs(OnlineMonth, m)) == Filter(online, KeyIs(OnlineMonth, m))
    ensures SortedDesc(SortedCash(cash), CashMonth) && multiset(SortedCash(cash)) == multiset(cash)
    ensures forall m :: Filter(SortedCash(cash), KeyIs(CashMonth, m)) == Filter(cash, KeyIs(CashMonth, m))
  {
    SortDescSpec(online, OnlineMonth);
    SortDescSpec(cash, CashMonth);
  }

  /** Edit and Delete are offered only for a pending online payment. */
  predicate OffersActions(t: OnlineTx)
  {
    t.status == "Pending"
  }

  function HasId(id: int): OnlineTx -> bool
  {
    (t: OnlineTx) => t.id == id
  }

  function IsNotId(id: int): OnlineTx -> bool
  {
    (t: OnlineTx) => t.id != id
  }

  function AmountFn(amount: Number): OnlineTx -> OnlineTx
  {
    (t: OnlineTx) => t.(amount := amount)
  }

  /** The online list after saving the edited amount of payment `id`. */
  function AmountEdited(s: seq<OnlineTx>, id: int, amount: Number): seq<OnlineTx>
  {
    MapWhere(s, HasId(id), AmountFn(amount))
  }

  /** Saving changes only the amount, and only of the payments with that id;
      an edited payment keeps its status and so keeps offering Edit and
      Delete. */
  lemma AmountEditedSpec(s: seq<OnlineTx>, id: int, amount: Number)
    ensures |AmountEdited(s, id, amount)| == |s|
    ensures forall i :: 0 <= i < |s| && s[i].id != id ==> AmountEdited(s, id, amount)[i] == s[i]
    ensures forall i :: 0 <= i < |s| && s[i].id == id ==> AmountEdited(s, id, amount)[i] == s[i].(amount := amount)
    ensures forall i :: 0 <= i < |s| ==> (OffersActions(AmountEdited(s, id, amount)[i]) <==> OffersActions(s[i]))
  {
    MapWhereAt(s, HasId(id), AmountFn(amount));
  }

  /** An edit keeps the month, so the edited payment stays where it was in
      the sorted tab: sorting the edited list gives the sorted list with the
      same edit. */
  lemma EditKeepsPosition(s: seq<OnlineTx>, id: int, amount: Number)
    ensures SortedOnline(AmountEdited(s, id, amount)) == AmountEdited(SortedOnline(s), id, amount)
  {
    SortDescMapWhere(s, OnlineMonth, HasId(id), AmountFn(amount));
  }

  /** The online list after `deleteTransaction(id)`. */
  function Deleted(s: seq<OnlineTx>, id: int): seq<OnlineTx>
  {
    Filter(s, IsNotId(id))
  }

  /** Deleting removes every online payment with that id and keeps the
      others in order. */
  lemma DeletedSpec(s: seq<OnlineTx>, id: int)
    ensures forall t :: t in Deleted(s, id) <==> t in s && t.id != id
    ensures Sublist(Deleted(s, id), s)
    ensures |Deleted(s, id)| == |s| - Count(s, HasId(id))
  {
    FilterSpec(s, IsNotId(id));
    CountComplement(s, HasId(id), IsNotId(id));
  }

  datatype PageState = PageState(
    activeTab: string,
    onlineTransactions: seq<OnlineTx>,
    cashTransactions: seq<CashTx>,
    isEditModalOpen: bool,
    editingTransaction: Option<OnlineTx>,
    editedAmount: Number,
    currentPageOnline: int,
    currentPageCash: int)

  class TransactionsPage {
    var activeTab: string
    var onlineTransactions: seq<OnlineTx>
    var cashTransactions: seq<CashTx>
    var isEditModalOpen: bool
    var editingTransaction: Option<OnlineTx>
    /** The amount field, as `parseFloat` reads it (empty text is NaN). */
    var editedAmount: Number
    var currentPageOnline: int
    var currentPageCash: int

    function State(): PageState
      reads this
    {
      PageState(activeTab, onlineTransactions, cashTransactions, isEditModalOpen, editingTransaction, editedAmount,
                currentPageOnline, currentPageCash)
    }

    /** The page as first rendered, over its two seed lists. */
    constructor (online: seq<OnlineTx>, cash: seq<CashTx>)
      ensures State() == PageState("online", online, cash, false, None, NaN, 1, 1)
    {
      activeTab := "online";
      onlineTransactions := online;
      cashTransactions := cash;
      isEditModalOpen := false;
      editingTransaction := None;
      editedAmount := NaN;
      currentPageOnline := 1;
      currentPageCash := 1;
    }

    /** `handleTabChange(tab)`: the chosen tab starts again at page 1; any tab
        other than 'online' resets the cash page. */
    method HandleTabChange(tab: string)
      modifies this
      ensures tab == "online" ==> State() == old(State()).(activeTab := tab, currentPageOnline := 1)
      ensures tab != "online" ==> State() == old(State()).(activeTab := tab, currentPageCash := 1)
    {
      activeTab := tab;
      if tab == "online" {
        currentPageOnline := 1;
      } else {
        currentPageCash := 1;
      }
    }

    method OpenEditModal(t: OnlineTx)
      modifies this
      ensures State() == old(State()).(editingTransaction := Some(t), editedAmount := t.amount, isEditModalOpen := true)
    {
      editingTransaction := Some(t);
      editedAmount := t.amount;
      isEditModalOpen := true;
    }

    method CloseEditModal()
      modifies this
      ensures State() == old(State()).(isEditModalOpen := false, editingTransaction := None, editedAmount := NaN)
    {
      isEditModalOpen := false;
      editingTransaction := None;
      editedAmount := NaN;
    }

    method HandleEditAmountChange(value: Number)
      modifies this
      ensures State() == old(State()).(editedAmount := value)
    {
      editedAmount := value;
    }

    /** `saveEditedTransaction`: with a payment being edited, stores the
        entered amount on it and closes the modal; the cash list is never
        touched. */
    method SaveEditedTransaction()
      modifies this
      ensures old(editingTransaction).None? ==> State() == old(State())
      ensures old(editingTransaction).Some? ==>
                State() == old(State()).(onlineTransactions := AmountEdited(old(onlineTransactions),
                                                                            old(editingTransaction).value.id, old(editedAmount)),
                                         isEditModalOpen := false, editingTransaction := None, editedAmount := NaN)
    {
      if editingTransaction.Some? {
        onlineTransactions := AmountEdited(onlineTransactions, editingTransaction.value.id, editedAmount);
        CloseEditModal();
      }
    }

    /** `deleteTransaction(id)`: removes it from the online list only, even
        when a cash payment carries the same id. */
    method DeleteTransaction(id: int)
      modifies this
      ensures State() == old(State()).(onlineTransactions := Deleted(old(onlineTransactions), id))
    {
      onlineTransactions := Deleted(onlineTransactions, id);
    }

    function CurrentOnlineTransactions(): seq<OnlineTx>
      reads this
    {
      PageOf(SortedOnline(onlineTransactions), currentPageOnline, ItemsPerPage)
    }

    function CurrentCashTransactions(): seq<CashTx>
      reads this
    {
      PageOf(SortedCash(cashTransactions), currentPageCash, ItemsPerPage)
    }

    function TotalOnlinePages(): nat
      reads this
    {
      TotalPages(|onlineTransactions|, ItemsPerPage)
    }

    function TotalCashPages(): nat
      reads this
    {
      TotalPages(|cashTransactions|, ItemsPerPage)
    }

    method HandleNextPageOnline()
      modifies this
      ensures State() == old(State()).(currentPageOnline := NextPage(old(currentPageOnline), TotalOnlinePages()))
    {
      currentPageOnline := if currentPageOnline < TotalOnlinePages() then currentPageOnline + 1 else currentPageOnline;
    }

    method HandlePrevPageOnline()
      modifies this
      ensures State() == old(State()).(currentPageOnline := PrevPage(old(currentPageOnline)))
    {
      currentPageOnline := if currentPageOnline > 1 then currentPageOnline - 1 else currentPageOnline;
    }

    method HandleNextPageCash()
      modifies this
      ensures State() == old(State()).(currentPageCash := NextPage(old(currentPageCash), TotalCashPages()))
    {
      currentPageCash := if currentPageCash < TotalCashPages() then currentPageCash + 1 else currentPageCash;
    }

    method HandlePrevPageCash()
      modifies this
      ensures State() == old(State()).(currentPageCash := PrevPage(old(currentPageCash)))
    {
      currentPageCash := if currentPageCash > 1 then currentPageCash - 1 else currentPageCash;
    }
  }
}
