/** The BP cash-handover page: the BP sees the linked transactions they have
    verified and not yet forwarded, ticks some of them, picks an NSFT member,
    and forwards the batch. The page keeps the selection, the select-all flag
    and the running total of the ticked `forwarded_amount`s. */
module BPHandovers {
  import opened Common
  import opened Paging
  import opened Selection

  const ItemsPerPage: nat := 5

  /** One of the original transactions a linked transaction bundles. */
  datatype OriginalTx = OriginalTx(id: int)

  /** A linked transaction: a batch forwarded to this BP. */
  datatype LinkedTx = LinkedTx(
    id: int,
    forwardedAmount: int,
    isVerifiedByForwardee: bool,
    isForwarded: bool,
    transactions: seq<OriginalTx>)

  /** A representative offered as a handover recipient. */
  datatype Representative = Representative(id: int, groups: seq<string>)

  /** The body posted to the forward endpoint. */
  datatype Payload = Payload(
    transactionsIds: seq<int>,
    previousTransactionsIds: seq<int>,
    forwardeeId: int,
    forwardedAmount: int)

  /** How a fetch ended: no stored token, an error reply, or the data. */
  datatype Fetch<T> = NoToken | HttpError(message: string) | Fetched(data: T)

  /** The forward endpoint's reply. */
  datatype Reply = Accepted | Refused(message: string)

  function LinkedId(t: LinkedTx): int
  {
    t.id
  }

  function ForwardedAmount(t: LinkedTx): int
  {
    t.forwardedAmount
  }

  /** Verified by this BP and not yet forwarded. */
  function Eligible(t: LinkedTx): bool
  {
    t.isVerifiedByForwardee && !t.isForwarded
  }

  /** In the NSFT group (exact case). */
  function InNSFT(r: Representative): bool
  {
    "NSFT" in r.groups
  }

  /** The list the page shows: the eligible linked transactions. */
  lemma EligibleListSpec(data: seq<LinkedTx>)
    ensures Sublist(Filter(data, Eligible), data)
    ensures forall t :: t in Filter(data, Eligible) <==> t in data && t.isVerifiedByForwardee && !t.isForwarded
    ensures |Filter(data, Eligible)| == Count(data, Eligible)
  {
    FilterSpec(data, Eligible);
  }

  /** The recipients offered: exactly the representatives in the NSFT group;
      a group spelt 'nsft' does not qualify. */
  lemma RecipientsSpec(data: seq<Representative>)
    ensures Sublist(Filter(data, InNSFT), data)
    ensures forall r :: r in Filter(data, InNSFT) <==> r in data && "NSFT" in r.groups
    ensures Filter([Representative(1, ["nsft"])], InNSFT) == []
  {
    FilterSpec(data, InNSFT);
    assert "NSFT" != "nsft";
  }

  // ------------------------------------------------------------ payload

  function OriginalIds(os: seq<OriginalTx>): seq<int>
  {
    if os == [] then [] else [os[0].id] + OriginalIds(os[1..])
  }

  /** `linked.flatMap(l => l.transactions.map(o => o.id))`. */
  function FlatOriginalIds(linked: seq<LinkedTx>): seq<int>
  {
    if linked == [] then [] else OriginalIds(linked[0].transactions) + FlatOriginalIds(linked[1..])
  }

  /** `linked.map(l => l.id)`. */
  function LinkedIds(linked: seq<LinkedTx>): seq<int>
  {
    if linked == [] then [] else [linked[0].id] + LinkedIds(linked[1..])
  }

  /** The forward payload for the listed transactions, the selection, the
      chosen recipient and the running total. */
  function ForwardPayload(s: seq<LinkedTx>, sel: set<int>, recipient: int, total: int): Payload
  {
    var chosen := SelectedItems(s, sel, LinkedId);
    Payload(FlatOriginalIds(chosen), LinkedIds(chosen), recipient, total)
  }

  lemma {:induction false} OriginalIdsSpec(os: seq<OriginalTx>)
    ensures |OriginalIds(os)| == |os|
    ensures forall i :: 0 <= i < |os| ==> OriginalIds(os)[i] == os[i].id
  {
    if os != [] {
      OriginalIdsSpec(os[1..]);
      assert forall i :: 1 <= i < |os| ==> OriginalIds(os)[i] == OriginalIds(os[1..])[i - 1];
    }
  }

  lemma {:induction false} LinkedIdsSpec(linked: seq<LinkedTx>)
    ensures |LinkedIds(linked)| == |linked|
    ensures forall i :: 0 <= i < |linked| ==> LinkedIds(linked)[i] == linked[i].id
  {
    if linked != [] {
      LinkedIdsSpec(linked[1..]);
      assert forall i :: 1 <= i < |linked| ==> LinkedIds(linked)[i] == LinkedIds(linked[1..])[i - 1];
    }
  }

  /** The flattened list holds the original ids of every batch, batch after
      batch: an id is in it exactly when some batch bundles it, and its
      length is the number of bundled originals. */
  lemma {:induction false} FlatOriginalIdsSpec(linked: seq<LinkedTx>)
    ensures forall x :: x in FlatOriginalIds(linked) <==>
              exists k, j :: 0 <= k < |linked| && 0 <= j < |linked[k].transactions| && linked[k].transactions[j].id == x
    ensures |FlatOriginalIds(linked)| == SumOf(linked, OriginalCount)
  {
    if linked != [] {
      FlatOriginalIdsSpec(linked[1..]);
      OriginalIdsSpec(linked[0].transactions);
      forall x
        ensures x in FlatOriginalIds(linked) <==>
                exists k, j :: 0 <= k < |linked| && 0 <= j < |linked[k].transactions| && linked[k].transactions[j].id == x
      {
        if x in OriginalIds(linked[0].transactions) {
          var j :| 0 <= j < |OriginalIds(linked[0].transactions)| && OriginalIds(linked[0].transactions)[j] == x;
          assert linked[0].transactions[j].id == x;
        }
        if x in FlatOriginalIds(linked[1..]) {
          var k, j :| 0 <= k < |linked[1..]| && 0 <= j < |linked[1..][k].transactions| && linked[1..][k].transactions[j].id == x;
          assert linked[k + 1].transactions[j].id == x;
        }
        if exists k, j :: 0 <= k < |linked| && 0 <= j < |linked[k].transactions| && linked[k].transactions[j].id == x {
          var k, j :| 0 <= k < |linked| && 0 <= j < |linked[k].transactions| && linked[k].transactions[j].id == x;
          if k == 0 {
            assert OriginalIds(linked[0].transactions)[j] == x;
          } else {
            assert linked[1..][k - 1].transactions[j].id == x;
          }
        }
      }
    }
  }

  function OriginalCount(t: LinkedTx): int
  {
    |t.transactions|
  }

  /** The payload forwards the ticked batches in list order: their ids as
      `previous_transactions_ids`, the originals they bundle as
      `transactions_ids`, the chosen recipient, and the running total. */
  lemma ForwardPayloadSpec(s: seq<LinkedTx>, sel: set<int>, recipient: int, total: int)
    ensures var p := ForwardPayload(s, sel, recipient, total);
            var chosen := SelectedItems(s, sel, LinkedId);
            && |p.previousTransactionsIds| == |chosen|
            && (forall i :: 0 <= i < |chosen| ==> p.previousTransactionsIds[i] == chosen[i].id)
            && (forall x :: x in p.previousTransactionsIds <==> x in sel && exists t :: t in s && t.id == x)
            && p.transactionsIds == FlatOriginalIds(chosen)
            && (forall x :: x in p.transactionsIds <==>
                  exists k, j :: 0 <= k < |chosen| && 0 <= j < |chosen[k].transactions| && chosen[k].transactions[j].id == x)
            && p.forwardeeId == recipient
            && p.forwardedAmount == total
  {
    var chosen := SelectedItems(s, sel, LinkedId);
    FilterSpec(s, InSel(sel, LinkedId));
    LinkedIdsSpec(chosen);
    FlatOriginalIdsSpec(chosen);
    var prev := LinkedIds(chosen);
    forall x
      ensures x in prev <==> x in sel && exists t :: t in s && t.id == x
    {
      if x in prev {
        var i :| 0 <= i < |prev| && prev[i] == x;
        assert chosen[i] in chosen;
        assert InSel(sel, LinkedId)(chosen[i]);
        assert LinkedId(chosen[i]) == x;
        assert chosen[i] in s && chosen[i].id == x;
      }
      if x in sel && exists t :: t in s && t.id == x {
        var t :| t in s && t.id == x;
        assert LinkedId(t) == x;
        assert InSel(sel, LinkedId)(t);
        assert t in chosen;
        var i :| 0 <= i < |chosen| && chosen[i] == t;
        assert prev[i] == x;
      }
    }
  }

  // ------------------------------------------------------------ the page

  datatype PageState = PageState(
    transactions: seq<LinkedTx>,
    selected: set<int>,
    selectAll: bool,
    totalSelectedAmount: int,
    isHandoverModalOpen: bool,
    recipients: seq<Representative>,
    selectedRecipientId: Option<int>,
    currentPage: int,
    error: Option<string>,
    recipientsError: Option<string>)

  class BPCashHandoversPage {
    var transactions: seq<LinkedTx>
    var selected: set<int>
    var selectAll: bool
    var totalSelectedAmount: int
    var isHandoverModalOpen: bool
    var recipients: seq<Representative>
    /** The chosen recipient's id; `None` while the select is empty. */
    var selectedRecipientId: Option<int>
    var currentPage: int
    var error: Option<string>
    var recipientsError: Option<string>

    function State(): PageState
      reads this
    {
      PageState(transactions, selected, selectAll, totalSelectedAmount, isHandoverModalOpen,
                recipients, selectedRecipientId, currentPage, error, recipientsError)
    }

    /** The total effect has settled: the total is the sum of the ticked
        listed amounts. */
    predicate Valid()
      reads this
    {
      totalSelectedAmount == SumOf(SelectedItems(transactions, selected, LinkedId), ForwardedAmount)
    }

    constructor ()
      ensures Valid()
      ensures State() == PageState([], {}, false, 0, false, [], None, 1, None, None)
    {
      transactions := [];
      selected := {};
      selectAll := false;
      totalSelectedAmount := 0;
      isHandoverModalOpen := false;
      recipients := [];
      selectedRecipientId := None;
      currentPage := 1;
      error := None;
      recipientsError := None;
    }

    /** The effects after a state change: the select-all effect when its
        inputs changed, then the total effect. */
    method SettleEffects(selectAllEffect: bool)
      modifies this
      ensures Valid()
      ensures selected == (if selectAllEffect then SelectionFor(selectAll, transactions, LinkedId) else old(selected))
      ensures State() == old(State()).(selected := selected, totalSelectedAmount := totalSelectedAmount)
    {
      if selectAllEffect {
        if selectAll {
          selected := Ids(transactions, LinkedId);
        } else {
          selected := {};
        }
      }
      totalSelectedAmount := ComputeTotal(transactions, selected, LinkedId, ForwardedAmount);
    }

    /** `fetchTransactions` once its reply is in: the list becomes the
        eligible linked transactions, and since the list changed the
        select-all effect re-applies the flag to it. */
    method FetchTransactions(reply: Fetch<seq<LinkedTx>>)
      modifies this
      requires Valid()
      ensures Valid()
      ensures reply.NoToken? ==> State() == old(State()).(error := Some("Authentication token not found."))
      ensures reply.HttpError? ==> State() == old(State()).(error := Some(reply.message))
      ensures reply.Fetched? ==>
                State() == old(State()).(transactions := Filter(reply.data, Eligible),
                                         selected := SelectionFor(selectAll, Filter(reply.data, Eligible), LinkedId),
                                         totalSelectedAmount := totalSelectedAmount,
                                         error := None)
    {
      match reply {
        case NoToken =>
          error := Some("Authentication token not found.");
        case HttpError(message) =>
          error := Some(message);
        case Fetched(data) =>
          error := None;
          transactions := Filter(data, Eligible);
          SettleEffects(true);
      }
    }

    /** `fetchRecipients` once its reply is in. */
    method FetchRecipients(reply: Fetch<seq<Representative>>)
      modifies this
      requires Valid()
      ensures Valid()
      ensures reply.NoToken? ==> State() == old(State()).(recipientsError := Some("Authentication token not found."))
      ensures reply.HttpError? ==> State() == old(State()).(recipientsError := Some(reply.message))
      ensures reply.Fetched? ==> State() == old(State()).(recipients := Filter(reply.data, InNSFT), recipientsError := None)
    {
      match reply {
        case NoToken =>
          recipientsError := Some("Authentication token not found.");
        case HttpError(message) =>
          recipientsError := Some(message);
        case Fetched(data) =>
          recipientsError := None;
          recipients := Filter(data, InNSFT);
      }
    }

    /** `handleTransactionSelect(id)`: flips that id, sets the flag to "as
        many selected as listed, and some listed"; a flag that changed makes
        the select-all effect overwrite the selection. */
    method HandleTransactionSelect(id: int)
      modifies this
      requires Valid()
      ensures Valid()
      ensures selectAll == AllSelectedFlag(Toggled(old(selected), id), |transactions|)
      ensures selected == (if selectAll != old(selectAll) then SelectionFor(selectAll, transactions, LinkedId)
                           else Toggled(old(selected), id))
      ensures State() == old(State()).(selected := selected, selectAll := selectAll, totalSelectedAmount := totalSelectedAmount)
    {
      var newSelectedIds := Toggled(selected, id);
      var before := selectAll;
      selected := newSelectedIds;
      selectAll := |newSelectedIds| == |transactions| && |transactions| > 0;
      SettleEffects(selectAll != before);
    }

    /** `handleSelectAll(checked)`. */
    method HandleSelectAll(checked: bool)
      modifies this
      requires Valid()
      ensures Valid()
      ensures selectAll == checked
      ensures selected == (if checked != old(selectAll) then SelectionFor(checked, transactions, LinkedId) else old(selected))
      ensures State() == old(State()).(selected := selected, selectAll := checked, totalSelectedAmount := totalSelectedAmount)
    {
      var before := selectAll;
      selectAll := checked;
      SettleEffects(checked != before);
    }

    /** `openHandoverModal`: opens only with something ticked. */
    method OpenHandoverModal()
      modifies this
      ensures State() == old(State()).(isHandoverModalOpen := if |selected| > 0 then true else old(isHandoverModalOpen))
    {
      if |selected| > 0 {
        isHandoverModalOpen := true;
      }
    }

    /** `closeHandoverModal`: closes and forgets the recipient. */
    method CloseHandoverModal()
      modifies this
      ensures State() == old(State()).(isHandoverModalOpen := false, selectedRecipientId := None)
    {
      isHandoverModalOpen := false;
      selectedRecipientId := None;
    }

    /** `handleRecipientChange`: the select's value is the recipient's id. */
    method HandleRecipientChange(id: int)
      modifies this
      ensures State() == old(State()).(selectedRecipientId := Some(id))
    {
      selectedRecipientId := Some(id);
    }

    /** `handleHandover`: without a recipient nothing is sent and nothing
        changes; without a token nothing is sent and an error is shown;
        otherwise the payload is posted, and on success the selection, flag
        and total are reset and the modal closes, while on failure only the
        error changes. The list is refetched afterwards (`FetchTransactions`). */
    method HandleHandover(hasToken: bool, reply: Reply) returns (sent: Option<Payload>)
      modifies this
      requires Valid()
      ensures Valid()
      ensures old(selectedRecipientId).None? ==> sent.None? && State() == old(State())
      ensures old(selectedRecipientId).Some? && !hasToken ==>
                sent.None? && State() == old(State()).(error := Some("Authentication token not found."))
      ensures old(selectedRecipientId).Some? && hasToken ==>
                sent == Some(ForwardPayload(old(transactions), old(selected), old(selectedRecipientId).value, old(totalSelectedAmount)))
      ensures old(selectedRecipientId).Some? && hasToken && reply.Accepted? ==>
                State() == old(State()).(selected := {}, selectAll := false, totalSelectedAmount := 0,
                                         isHandoverModalOpen := false, selectedRecipientId := None, error := None)
      ensures old(selectedRecipientId).Some? && hasToken && reply.Refused? ==>
                State() == old(State()).(error := Some(reply.message))
    {
      if selectedRecipientId.None? {
        return None;
      }
      if !hasToken {
        error := Some("Authentication token not found.");
        return None;
      }
      error := None;
      var payload := ForwardPayload(transactions, selected, selectedRecipientId.value, totalSelectedAmount);
      sent := Some(payload);
      match reply {
        case Refused(message) =>
          error := Some(message);
        case Accepted =>
          selected := {};
          selectAll := false;
          totalSelectedAmount := 0;
          isHandoverModalOpen := false;
          selectedRecipientId := None;
          // The effects this triggers find nothing selected and leave the
          // selection empty and the total 0.
          NothingSelectedTotal(transactions, LinkedId, ForwardedAmount);
      }
    }

    /** The transactions on the current page. */
    function CurrentTransactions(): seq<LinkedTx>
      reads this
    {
      PageOf(transactions, currentPage, ItemsPerPage)
    }

    function TotalPagesNow(): nat
      reads this
    {
      TotalPages(|transactions|, ItemsPerPage)
    }

    method HandleNextPage()
      modifies this
      ensures State() == old(State()).(currentPage := NextPage(old(currentPage), TotalPagesNow()))
    {
      currentPage := if currentPage < TotalPagesNow() then currentPage + 1 else currentPage;
    }

    method HandlePrevPage()
      modifies this
      ensures State() == old(State()).(currentPage := PrevPage(old(currentPage)))
    {
      currentPage := if currentPage > 1 then currentPage - 1 else currentPage;
    }
  }

  /** The posted `forwarded_amount` is the sum of the ticked batches'
      `forwarded_amount`s whenever the total effect has settled. */
  lemma PayloadAmountIsSum(s: seq<LinkedTx>, sel: set<int>, recipient: int, total: int)
    requires total == SumOf(SelectedItems(s, sel, LinkedId), ForwardedAmount)
    ensures ForwardPayload(s, sel, recipient, total).forwardedAmount ==
              SumOf(SelectedItems(s, sel, LinkedId), ForwardedAmount)
    ensures ForwardPayload(s, sel, recipient, total).forwardedAmount == SumSelected(s, sel, LinkedId, ForwardedAmount)
  {
    SumSelectedIsSumOfSelected(s, sel, LinkedId, ForwardedAmount);
  }
}
