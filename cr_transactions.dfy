/** The CR's cash-transactions page: the CR searches the cash collected from
    students, narrows it by status, and may correct the amount of an
    unprocessed transaction or delete it. The list is paged seven at a time.
    The edit and delete helpers are mirrored in `StudentTransactions` over
    that page's own record type. */
module CRTransactions {
  import opened Common
  import opened Paging

  const ItemsPerPage: nat := 7

  /** A cash transaction; `amount` is a number as `parseFloat` yields it. */
  datatype CashTx = CashTx(id: int, name: string, cms: string, amount: Number, date: string, status: string)

  predicate MatchesSearch(t: CashTx, searchTerm: string)
  {
    ContainsIgnoringCase(t.name, searchTerm) || ContainsIgnoringCase(t.cms, searchTerm)
  }

  /** The status filter compares the status exactly, without lowercasing. */
  predicate MatchesStatus(t: CashTx, statusFilter: string)
  {
    statusFilter == "all" || t.status == statusFilter
  }

  function SearchFn(searchTerm: string): CashTx -> bool
  {
    t => MatchesSearch(t, searchTerm)
  }

  function StatusFn(statusFilter: string): CashTx -> bool
  {
    t => MatchesStatus(t, statusFilter)
  }

  function ShownFn(searchTerm: string, statusFilter: string): CashTx -> bool
  {
    t => MatchesSearch(t, searchTerm) && MatchesStatus(t, statusFilter)
  }

  /** `filteredTransactions`: the search filter, then the status filter. */
  function FilteredTransactions(s: seq<CashTx>, searchTerm: string, statusFilter: string): seq<CashTx>
  {
    Filter(Filter(s, SearchFn(searchTerm)), StatusFn(statusFilter))
  }

  /** The shown list is the order-preserving sublist of transactions that
      match the search and the status filter. */
  lemma FilteredTransactionsSpec(s: seq<CashTx>, searchTerm: string, statusFilter: string)
    ensures Sublist(FilteredTransactions(s, searchTerm, statusFilter), s)
    ensures forall t :: t in FilteredTransactions(s, searchTerm, statusFilter) <==>
              t in s && MatchesSearch(t, searchTerm) && MatchesStatus(t, statusFilter)
    ensures |FilteredTransactions(s, searchTerm, statusFilter)| == Count(s, ShownFn(searchTerm, statusFilter))
  {
    FilterFilter(s, SearchFn(searchTerm), StatusFn(statusFilter), ShownFn(searchTerm, statusFilter));
    FilterSpec(s, ShownFn(searchTerm, statusFilter));
  }

  /** The filter for 'all' with an empty search shows the whole list. */
  lemma NoFilterShowsAll(s: seq<CashTx>)
    ensures FilteredTransactions(s, "", "all") == s
  {
    forall i | 0 <= i < |s|
      ensures ShownFn("", "all")(s[i])
    {
      ContainsEmpty(Lower(s[i].name));
    }
    FilterKeepsAll(s, ShownFn("", "all"));
    FilterFilter(s, SearchFn(""), StatusFn("all"), ShownFn("", "all"));
  }

  /** Edit and Delete are offered for a row only while it is unprocessed. */
  predicate OffersActions(t: CashTx)
  {
    t.status == "unprocessed"
  }

  function HasId(id: int): CashTx -> bool
  {
    (t: CashTx) => t.id == id
  }

  function IsNotId(id: int): CashTx -> bool
  {
    (t: CashTx) => t.id != id
  }

  function AmountFn(amount: Number): CashTx -> CashTx
  {
    (t: CashTx) => t.(amount := amount)
  }

  /** The list after saving the edited amount of transaction `id`. */
  function AmountEdited(s: seq<CashTx>, id: int, amount: Number): seq<CashTx>
  {
    MapWhere(s, HasId(id), AmountFn(amount))
  }

  /** Saving changes only the amount, and only of the transactions with that
      id; in particular an edited row keeps its status and so keeps offering
      Edit and Delete. */
  lemma AmountEditedSpec(s: seq<CashTx>, id: int, amount: Number)
    ensures |AmountEdited(s, id, amount)| == |s|
    ensures forall i :: 0 <= i < |s| && s[i].id != id ==> AmountEdited(s, id, amount)[i] == s[i]
    ensures forall i :: 0 <= i < |s| && s[i].id == id ==> AmountEdited(s, id, amount)[i] == s[i].(amount := amount)
    ensures forall i :: 0 <= i < |s| ==> (OffersActions(AmountEdited(s, id, amount)[i]) <==> OffersActions(s[i]))
  {
    MapWhereAt(s, HasId(id), AmountFn(amount));
  }

  /** The list after deleting transaction `id`. */
  function Deleted(s: seq<CashTx>, id: int): seq<CashTx>
  {
    Filter(s, IsNotId(id))
  }

  /** Deleting removes every transaction with that id and keeps all the
      others, in order; the list shrinks by the number removed. */
  lemma DeletedSpec(s: seq<CashTx>, id: int)
    ensures forall t :: t in Deleted(s, id) <==> t in s && t.id != id
    ensures Sublist(Deleted(s, id), s)
    ensures |Deleted(s, id)| == |s| - Count(s, HasId(id))
  {
    FilterSpec(s, IsNotId(id));
    CountComplement(s, HasId(id), IsNotId(id));
  }

  datatype PageState = PageState(
    transactions: seq<CashTx>,
    searchTerm: string,
    statusFilter: string,
    isEditModalOpen: bool,
    editingTransaction: Option<CashTx>,
    editedAmount: Number,
    isDeleteConfirmationOpen: bool,
    transactionToDelete: Option<CashTx>,
    currentPage: int)

  class CRTransactionsPage {
    var transactions: seq<CashTx>
    var searchTerm: string
    var statusFilter: string
    var isEditModalOpen: bool
    var editingTransaction: Option<CashTx>
    /** The amount field, as `parseFloat` reads it (empty text is NaN). */
    var editedAmount: Number
    var isDeleteConfirmationOpen: bool
    var transactionToDelete: Option<CashTx>
    var currentPage: int

    function State(): PageState
      reads this
    {
      PageState(transactions, searchTerm, statusFilter, isEditModalOpen, editingTransaction, editedAmount,
                isDeleteConfirmationOpen, transactionToDelete, currentPage)
    }

    /** The page as first rendered, over its seed list. */
    constructor (initial: seq<CashTx>)
      ensures State() == PageState(initial, "", "all", false, None, NaN, false, None, 1)
    {
      transactions := initial;
      searchTerm := "";
      statusFilter := "all";
      isEditModalOpen := false;
      editingTransaction := None;
      editedAmount := NaN;
      isDeleteConfirmationOpen := false;
      transactionToDelete := None;
      currentPage := 1;
    }

    method HandleSearchChange(value: string)
      modifies this
      ensures State() == old(State()).(searchTerm := value, currentPage := 1)
    {
      searchTerm := value;
      currentPage := 1;
    }

    method HandleStatusFilterChange(value: string)
      modifies this
      ensures State() == old(State()).(statusFilter := value, currentPage := 1)
    {
      statusFilter := value;
      currentPage := 1;
    }

    /** `openEditModal(t)`: the amount field starts at the current amount. */
    method OpenEditModal(t: CashTx)
      modifies this
      ensures State() == old(State()).(editingTransaction := Some(t), editedAmount := t.amount, isEditModalOpen := true)
    {
      editingTransaction := Some(t);
      editedAmount := t.amount;
      isEditModalOpen := true;
    }

    method CloseEditModal()
      modifies this
      ensures State() == old(State()).(isEditModalOpen := false, editingTransaction := None, editedAmount := NaN)
    {
      isEditModalOpen := false;
      editingTransaction := None;
      editedAmount := NaN;
    }

    method HandleEditedAmountChange(value: Number)
      modifies this
      ensures State() == old(State()).(editedAmount := value)
    {
      editedAmount := value;
    }

    /** `saveEditedAmount`: with a transaction being edited, stores the
        entered amount on it and closes the modal; otherwise does nothing. */
    method SaveEditedAmount()
      modifies this
      ensures old(editingTransaction).None? ==> State() == old(State())
      ensures old(editingTransaction).Some? ==>
                State() == old(State()).(transactions := AmountEdited(old(transactions), old(editingTransaction).value.id,
                                                                      old(editedAmount)),
                                         isEditModalOpen := false, editingTransaction := None, editedAmount := NaN)
    {
      if editingTransaction.Some? {
        transactions := AmountEdited(transactions, editingTransaction.value.id, editedAmount);
        CloseEditModal();
      }
    }

    method OpenDeleteConfirmation(t: CashTx)
      modifies this
      ensures State() == old(State()).(transactionToDelete := Some(t), isDeleteConfirmationOpen := true)
    {
      transactionToDelete := Some(t);
      isDeleteConfirmationOpen := true;
    }

    method CloseDeleteConfirmation()
      modifies this
      ensures State() == old(State()).(isDeleteConfirmationOpen := false, transactionToDelete := None)
    {
      isDeleteConfirmationOpen := false;
      transactionToDelete := None;
    }

    /** `handleDeleteTransaction`: with a transaction chosen, removes it from
        the list and closes the confirmation; otherwise does nothing. */
    method HandleDeleteTransaction()
      modifies this
      ensures old(transactionToDelete).None? ==> State() == old(State())
      ensures old(transactionToDelete).Some? ==>
                State() == old(State()).(transactions := Deleted(old(transactions), old(transactionToDelete).value.id),
                                         isDeleteConfirmationOpen := false, transactionToDelete := None)
    {
      if transactionToDelete.Some? {
        transactions := Deleted(transactions, transactionToDelete.value.id);
        CloseDeleteConfirmation();
      }
    }

    function Shown(): seq<CashTx>
      reads this
    {
      FilteredTransactions(transactions, searchTerm, statusFilter)
    }

    function CurrentTransactions(): seq<CashTx>
      reads this
    {
      PageOf(Shown(), currentPage, ItemsPerPage)
    }

    function TotalPagesNow(): nat
      reads this
    {
      TotalPages(|Shown()|, ItemsPerPage)
    }

    method HandleNextPage()
      modifies this
      ensures State() == old(State()).(currentPage := NextPage(old(currentPage), TotalPagesNow()))
    {
      currentPage := if currentPage < TotalPagesNow() then currentPage + 1 else currentPage;
    }

    method HandlePrevPage()
      modifies this
      ensures State() == old(State()).(currentPage := PrevPage(old(currentPage)))
    {
      currentPage := if currentPage > 1 then currentPage - 1 else currentPage;
    }
  }
}
