/** The CR's online-transaction verification page: the CR opens a student's
    online payment, may correct the amount, and either verifies it or, when
    it went to the wrong account, discards it. The list can be searched,
    narrowed by status, ordered by date and paged eight at a time. */
module VerifyOnline {
  import opened Common
  import opened Paging

  const ItemsPerPage: nat := 8

  /** An online payment. `amount` is a number as `parseFloat` yields it;
      `date` is a timestamp. */
  datatype OnlineTx = OnlineTx(id: int, name: string, cms: string, amount: Number, date: int, status: string, receiptUrl: string)

  function DateOf(t: OnlineTx): int
  {
    t.date
  }

  predicate MatchesSearch(t: OnlineTx, searchTerm: string)
  {
    ContainsIgnoringCase(t.name, searchTerm) || ContainsIgnoringCase(t.cms, searchTerm)
  }

  /** The status filter: 'all', or the lowercased status must equal it. */
  predicate MatchesStatus(t: OnlineTx, filterStatus: string)
  {
    filterStatus == "all" || Lower(t.status) == filterStatus
  }

  function SearchFn(searchTerm: string): OnlineTx -> bool
  {
    t => MatchesSearch(t, searchTerm)
  }

  function StatusFn(filterStatus: string): OnlineTx -> bool
  {
    t => MatchesStatus(t, filterStatus)
  }

  function ShownFn(searchTerm: string, filterStatus: string): OnlineTx -> bool
  {
    t => MatchesSearch(t, searchTerm) && MatchesStatus(t, filterStatus)
  }

  /** `filteredAndSortedTransactions`: search, then status, then newest first
      when sorting by date (any other sort keeps the list order). */
  function FilteredAndSorted(s: seq<OnlineTx>, searchTerm: string, filterStatus: string, sortBy: string): seq<OnlineTx>
  {
    var filtered := Filter(Filter(s, SearchFn(searchTerm)), StatusFn(filterStatus));
    if sortBy == "date" then SortDesc(filtered, DateOf) else filtered
  }

  /** The shown list holds exactly the transactions that match the search and
      the status filter, each as often as in the full list; sorted by date it
      runs newest first and keeps the full list's order among equal dates,
      otherwise it keeps the full list's order throughout. */
  lemma FilteredAndSortedSpec(s: seq<OnlineTx>, searchTerm: string, filterStatus: string, sortBy: string)
    ensures var r := FilteredAndSorted(s, searchTerm, filterStatus, sortBy);
            && (forall t :: t in r <==> t in s && MatchesSearch(t, searchTerm) && MatchesStatus(t, filterStatus))
            && |r| == Count(s, ShownFn(searchTerm, filterStatus))
            && (sortBy == "date" ==>
                  && SortedDesc(r, DateOf)
                  && multiset(r) == multiset(Filter(s, ShownFn(searchTerm, filterStatus)))
                  && forall d :: Filter(r, KeyIs(DateOf, d)) == Filter(Filter(s, ShownFn(searchTerm, filterStatus)), KeyIs(DateOf, d)))
            && (sortBy != "date" ==> r == Filter(s, ShownFn(searchTerm, filterStatus)) && Sublist(r, s))
  {
    var bySearch := Filter(s, SearchFn(searchTerm));
    var filtered := Filter(bySearch, StatusFn(filterStatus));
    FilterSpec(s, SearchFn(searchTerm));
    FilterSpec(bySearch, StatusFn(filterStatus));
    SortDescSpec(filtered, DateOf);
    forall t
      ensures t in SortDesc(filtered, DateOf) <==> t in filtered
    {
      assert t in multiset(SortDesc(filtered, DateOf)) <==> t in multiset(filtered);
    }
    FilterFilter(s, SearchFn(searchTerm), StatusFn(filterStatus), ShownFn(searchTerm, filterStatus));
    FilterSpec(s, ShownFn(searchTerm, filterStatus));
  }

  function HasId(id: int): OnlineTx -> bool
  {
    (t: OnlineTx) => t.id == id
  }

  function VerifyFn(amount: Number): OnlineTx -> OnlineTx
  {
    (t: OnlineTx) => t.(status := "Verified", amount := amount)
  }

  /** The list after verifying transaction `id` with the entered amount. */
  function Verified(s: seq<OnlineTx>, id: int, amount: Number): seq<OnlineTx>
  {
    MapWhere(s, HasId(id), VerifyFn(amount))
  }

  /** Verifying sets status 'Verified' and the entered amount on the
      transactions with that id and leaves the others, and the length, as
      they were. */
  lemma VerifiedSpec(s: seq<OnlineTx>, id: int, amount: Number)
    ensures |Verified(s, id, amount)| == |s|
    ensures forall i :: 0 <= i < |s| && s[i].id != id ==> Verified(s, id, amount)[i] == s[i]
    ensures forall i :: 0 <= i < |s| && s[i].id == id ==>
              Verified(s, id, amount)[i] == s[i].(status := "Verified", amount := amount)
  {
    MapWhereAt(s, HasId(id), VerifyFn(amount));
  }

  datatype PageState = PageState(
    onlineTransactions: seq<OnlineTx>,
    searchTerm: string,
    sortBy: string,
    filterStatus: string,
    isViewModalOpen: bool,
    viewingTransaction: Option<OnlineTx>,
    editedAmount: Number,
    isWrongAccount: bool,
    wrongAccountDetails: string,
    currentPage: int)

  class VerifyOnlineTransactionPage {
    var onlineTransactions: seq<OnlineTx>
    var searchTerm: string
    var sortBy: string
    var filterStatus: string
    var isViewModalOpen: bool
    var viewingTransaction: Option<OnlineTx>
    /** The amount field, as `parseFloat` reads it (empty text is NaN). */
    var editedAmount: Number
    var isWrongAccount: bool
    var wrongAccountDetails: string
    var currentPage: int

    function State(): PageState
      reads this
    {
      PageState(onlineTransactions, searchTerm, sortBy, filterStatus, isViewModalOpen, viewingTransaction,
                editedAmount, isWrongAccount, wrongAccountDetails, currentPage)
    }

    /** The page as first rendered, over its seed list. */
    constructor (initial: seq<OnlineTx>)
      ensures State() == PageState(initial, "", "date", "all", false, None, NaN, false, "", 1)
    {
      onlineTransactions := initial;
      searchTerm := "";
      sortBy := "date";
      filterStatus := "all";
      isViewModalOpen := false;
      viewingTransaction := None;
      editedAmount := NaN;
      isWrongAccount := false;
      wrongAccountDetails := "";
      currentPage := 1;
    }

    method HandleSearchChange(value: string)
      modifies this
      ensures State() == old(State()).(searchTerm := value, currentPage := 1)
    {
      searchTerm := value;
      currentPage := 1;
    }

    method HandleSortByChange(value: string)
      modifies this
      ensures State() == old(State()).(sortBy := value, currentPage := 1)
    {
      sortBy := value;
      currentPage := 1;
    }

    method HandleFilterChange(status: string)
      modifies this
      ensures State() == old(State()).(filterStatus := status, currentPage := 1)
    {
      filterStatus := status;
      currentPage := 1;
    }

    /** `openViewModal(t)`: the amount field starts at the transaction's
        amount, the wrong-account flag and details are cleared. */
    method OpenViewModal(t: OnlineTx)
      modifies this
      ensures State() == old(State()).(viewingTransaction := Some(t), editedAmount := t.amount, isViewModalOpen := true,
                                       isWrongAccount := false, wrongAccountDetails := "")
    {
      viewingTransaction := Some(t);
      editedAmount := t.amount;
      isViewModalOpen := true;
      isWrongAccount := false;
      wrongAccountDetails := "";
    }

    method CloseViewModal()
      modifies this
      ensures State() == old(State()).(isViewModalOpen := false, viewingTransaction := None, editedAmount := NaN,
                                       isWrongAccount := false, wrongAccountDetails := "")
    {
      isViewModalOpen := false;
      viewingTransaction := None;
      editedAmount := NaN;
      isWrongAccount := false;
      wrongAccountDetails := "";
    }

    method HandleEditAmountChange(value: Number)
      modifies this
      ensures State() == old(State()).(editedAmount := value)
    {
      editedAmount := value;
    }

    method HandleWrongAccountChange(checked: bool)
      modifies this
      ensures State() == old(State()).(isWrongAccount := checked)
    {
      isWrongAccount := checked;
    }

    method HandleWrongAccountDetailsChange(value: string)
      modifies this
      ensures State() == old(State()).(wrongAccountDetails := value)
    {
      wrongAccountDetails := value;
    }

    /** `handleVerifyTransaction`: acts only on a pending transaction not
        flagged as paid to a wrong account; then records it as verified with
        the entered amount and closes the modal. Otherwise nothing changes. */
    method HandleVerifyTransaction()
      modifies this
      ensures var v := old(viewingTransaction);
              v.Some? && !old(isWrongAccount) && v.value.status == "Pending" ==>
                State() == old(State()).(onlineTransactions := Verified(old(onlineTransactions), v.value.id, old(editedAmount)),
                                         isViewModalOpen := false, viewingTransaction := None, editedAmount := NaN,
                                         isWrongAccount := false, wrongAccountDetails := "")
      ensures var v := old(viewingTransaction);
              !(v.Some? && !old(isWrongAccount) && v.value.status == "Pending") ==> State() == old(State())
    {
      if viewingTransaction.Some? && !isWrongAccount && viewingTransaction.value.status == "Pending" {
        onlineTransactions := Verified(onlineTransactions, viewingTransaction.value.id, editedAmount);
        CloseViewModal();
      }
    }

    /** `handleDiscardTransaction`: for a pending transaction flagged as paid
        to a wrong account, closes the modal; the list itself is not changed. */
    method HandleDiscardTransaction()
      modifies this
      ensures onlineTransactions == old(onlineTransactions)
      ensures var v := old(viewingTransaction);
              v.Some? && v.value.status == "Pending" && old(isWrongAccount) ==>
                State() == old(State()).(isViewModalOpen := false, viewingTransaction := None, editedAmount := NaN,
                                         isWrongAccount := false, wrongAccountDetails := "")
      ensures var v := old(viewingTransaction);
              !(v.Some? && v.value.status == "Pending" && old(isWrongAccount)) ==> State() == old(State())
    {
      if viewingTransaction.Some? && viewingTransaction.value.status == "Pending" && isWrongAccount {
        CloseViewModal();
      }
    }

    function Shown(): seq<OnlineTx>
      reads this
    {
      FilteredAndSorted(onlineTransactions, searchTerm, filterStatus, sortBy)
    }

    function CurrentTransactions(): seq<OnlineTx>
      reads this
    {
      PageOf(Shown(), currentPage, ItemsPerPage)
    }

    function TotalPagesNow(): nat
      reads this
    {
      TotalPages(|Shown()|, ItemsPerPage)
    }

    method HandleNextPage()
      modifies this
      ensures State() == old(State()).(currentPage := NextPage(old(currentPage), TotalPagesNow()))
    {
      currentPage := if currentPage < TotalPagesNow() then currentPage + 1 else currentPage;
    }

    method HandlePrevPage()
      modifies this
      ensures State() == old(State()).(currentPage := PrevPage(old(currentPage)))
    {
      currentPage := if currentPage > 1 then currentPage - 1 else currentPage;
    }
  }

  /** Opening a transaction and verifying it without touching the amount
      field keeps its amount. */
  lemma VerifyUneditedKeepsAmount(s: seq<OnlineTx>, t: OnlineTx)
    ensures |Verified(s, t.id, t.amount)| == |s|
    ensures forall i :: 0 <= i < |s| && s[i] == t ==> Verified(s, t.id, t.amount)[i] == t.(status := "Verified")
  {
    VerifiedSpec(s, t.id, t.amount);
  }
}
