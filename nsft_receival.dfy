/** NSFT's cash-receival confirmation page: NSFT confirms that a cash
    handover from a BP arrived, which marks it 'received'. The list is never
    filtered or shortened; it is paged five at a time with `Math.min` and
    `Math.max` steps. */
module NsftReceival {
  import opened Common
  import opened Paging

  const ItemsPerPage: nat := 5

  datatype Handover = Handover(id: int, bpName: string, amount: int, handoverDate: string, status: string)

  function HasId(id: int): Handover -> bool
  {
    (t: Handover) => t.id == id
  }

  function MarkReceived(t: Handover): Handover
  {
    t.(status := "received")
  }

  /** The list after confirming handover `id`. */
  function Confirmed(s: seq<Handover>, id: int): seq<Handover>
  {
    MapWhere(s, HasId(id), MarkReceived)
  }

  /** Confirming marks the handovers with that id 'received' and changes
      nothing else: not the other handovers, not the length, not the amount,
      BP or date of the confirmed one. */
  lemma ConfirmedSpec(s: seq<Handover>, id: int)
    ensures |Confirmed(s, id)| == |s|
    ensures forall i :: 0 <= i < |s| && s[i].id != id ==> Confirmed(s, id)[i] == s[i]
    ensures forall i :: 0 <= i < |s| && s[i].id == id ==> Confirmed(s, id)[i] == s[i].(status := "received")
  {
    MapWhereAt(s, HasId(id), MarkReceived);
  }

  /** Every row keeps its Verify button, so a handover can be confirmed
      twice; the second confirmation changes nothing. */
  lemma {:induction false} ConfirmIdempotent(s: seq<Handover>, id: int)
    ensures Confirmed(Confirmed(s, id), id) == Confirmed(s, id)
  {
    var once := Confirmed(s, id);
    ConfirmedSpec(s, id);
    ConfirmedSpec(once, id);
    forall i | 0 <= i < |s|
      ensures Confirmed(once, id)[i] == once[i]
    {
      if s[i].id == id {
        assert once[i].id == id;
      }
    }
  }

  datatype PageState = PageState(
    transactionsToConfirm: seq<Handover>,
    isConfirmationModalOpen: bool,
    transactionToVerify: Option<Handover>,
    currentPage: int)

  class CashReceivalConfirmationPage {
    var transactionsToConfirm: seq<Handover>
    var isConfirmationModalOpen: bool
    var transactionToVerify: Option<Handover>
    var currentPage: int

    function State(): PageState
      reads this
    {
      PageState(transactionsToConfirm, isConfirmationModalOpen, transactionToVerify, currentPage)
    }

    /** The page as first rendered, over its seed list. */
    constructor (initial: seq<Handover>)
      ensures State() == PageState(initial, false, None, 1)
    {
      transactionsToConfirm := initial;
      isConfirmationModalOpen := false;
      transactionToVerify := None;
      currentPage := 1;
    }

    function TotalPagesNow(): nat
      reads this
    {
      TotalPages(|transactionsToConfirm|, ItemsPerPage)
    }

    function CurrentTransactions(): seq<Handover>
      reads this
    {
      PageOf(transactionsToConfirm, currentPage, ItemsPerPage)
    }

    method HandleVerifyClick(t: Handover)
      modifies this
      ensures State() == old(State()).(transactionToVerify := Some(t), isConfirmationModalOpen := true)
    {
      transactionToVerify := Some(t);
      isConfirmationModalOpen := true;
    }

    method CloseConfirmationModal()
      modifies this
      ensures State() == old(State()).(isConfirmationModalOpen := false, transactionToVerify := None)
    {
      isConfirmationModalOpen := false;
      transactionToVerify := None;
    }

    /** `handleConfirmVerification`: with a handover chosen, marks it
        'received' and closes the modal; otherwise does nothing. The list
        keeps its length, so the page count stays the same. */
    method HandleConfirmVerification()
      modifies this
      ensures old(transactionToVerify).None? ==> State() == old(State())
      ensures old(transactionToVerify).Some? ==>
                State() == old(State()).(transactionsToConfirm := Confirmed(old(transactionsToConfirm), old(transactionToVerify).value.id),
                                         isConfirmationModalOpen := false, transactionToVerify := None)
      ensures TotalPagesNow() == old(TotalPagesNow())
    {
      if transactionToVerify.Some? {
        ConfirmedSpec(transactionsToConfirm, transactionToVerify.value.id);
        transactionsToConfirm := Confirmed(transactionsToConfirm, transactionToVerify.value.id);
        CloseConfirmationModal();
      }
    }

    method HandlePrevPage()
      modifies this
      ensures State() == old(State()).(currentPage := ClampedPrevPage(old(currentPage)))
    {
      currentPage := if currentPage - 1 > 1 then currentPage - 1 else 1;
    }

    method HandleNextPage()
      modifies this
      ensures State() == old(State()).(currentPage := ClampedNextPage(old(currentPage), TotalPagesNow()))
    {
      currentPage := if currentPage + 1 < TotalPagesNow() then currentPage + 1 else TotalPagesNow();
    }
  }
}
