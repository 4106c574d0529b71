/** The accountant's fund-requests tab: lists the requests NSFT approved and
    wraps the Grant and Reject handlers so that a request's buttons are
    disabled while an action on it is in flight. The in-flight ids are a
    list, appended to when an action starts and filtered when it ends. */
module AccountantTab {
  import opened Common
  import opened FundStore

  function IsNot(id: int): int -> bool
  {
    x => x != id
  }

  function Is(id: int): int -> bool
  {
    x => x == id
  }

  /** `prev.filter(x => x !== id)`. */
  function Without(ids: seq<int>, id: int): seq<int>
  {
    Filter(ids, IsNot(id))
  }

  /** Finishing an action removes every occurrence of its id and keeps the
      other in-flight ids, in order. */
  lemma WithoutSpec(ids: seq<int>, id: int)
    ensures id !in Without(ids, id)
    ensures forall x :: x != id ==> (x in Without(ids, id) <==> x in ids)
    ensures Sublist(Without(ids, id), ids)
    ensures |Without(ids, id)| == |ids| - Count(ids, Is(id))
  {
    FilterSpec(ids, IsNot(id));
    CountComplement(ids, Is(id), IsNot(id));
  }

  /** An action that starts and ends with no other action in between leaves
      the in-flight list as it found it, with that id removed. */
  lemma {:induction false} StartThenFinish(ids: seq<int>, id: int)
    ensures Without(ids + [id], id) == Without(ids, id)
    ensures id !in ids ==> Without(ids + [id], id) == ids
  {
    if ids == [] {
      assert Without([id], id) == Without([], id) by {
        assert [id][1..] == [];
      }
    } else {
      assert (ids + [id])[0] == ids[0];
      assert (ids + [id])[1..] == ids[1..] + [id];
      StartThenFinish(ids[1..], id);
    }
    if id !in ids {
      forall i | 0 <= i < |ids|
        ensures IsNot(id)(ids[i])
      {
        assert ids[i] in ids;
      }
      FilterKeepsAll(ids, IsNot(id));
    }
  }

  datatype TabState = TabState(pendingRequests: seq<FundRequest>, processingRequestIds: seq<int>)

  class FundRequestsTab {
    var pendingRequests: seq<FundRequest>
    var processingRequestIds: seq<int>

    function State(): TabState
      reads this
    {
      TabState(pendingRequests, processingRequestIds)
    }

    constructor ()
      ensures State() == TabState([], [])
    {
      pendingRequests := [];
      processingRequestIds := [];
    }

    /** `isProcessing(id)`: an action on the request is in flight, and its
        Grant and Reject buttons are disabled. */
    predicate IsProcessing(id: int)
      reads this
    {
      id in processingRequestIds
    }

    /** `fetchPendingRequests`: the tab lists the requests NSFT approved. */
    method FetchPendingRequests(store: RequestsStore)
      modifies this
      ensures State() == old(State()).(pendingRequests := ApprovedQueue(store.requests))
    {
      pendingRequests := store.GetApprovedByNSFT();
    }

    /** The start of a wrapper: the request's id joins the in-flight list,
        which disables its buttons. */
    method StartAction(id: int)
      modifies this
      ensures State() == old(State()).(processingRequestIds := old(processingRequestIds) + [id])
      ensures IsProcessing(id)
    {
      processingRequestIds := processingRequestIds + [id];
    }

    /** The end of a wrapper: the list is refreshed only when the handler
        returned normally, and, whether it returned or threw, every
        occurrence of the id leaves the in-flight list. */
    method FinishAction(id: int, handlerThrew: bool, store: RequestsStore)
      modifies this
      ensures processingRequestIds == Without(old(processingRequestIds), id)
      ensures !IsProcessing(id)
      ensures pendingRequests == if handlerThrew then old(pendingRequests) else ApprovedQueue(store.requests)
    {
      if !handlerThrew {
        FetchPendingRequests(store);
      }
      processingRequestIds := Without(processingRequestIds, id);
      WithoutSpec(old(processingRequestIds), id);
    }

    /** `handleGrantFundWrapper` / `handleRejectRequestWrapper` run with no
        other action interleaved: the handler either returns, and the list is
        refreshed from `store`, or throws; either way the in-flight list ends
        as it began, minus the id. The grant handler only opens the grant
        dialog, so for a grant `store` is still the table before the grant
        and the refresh does not yet show it. */
    method RunWrapped(id: int, handlerThrew: bool, store: RequestsStore)
      modifies this
      ensures processingRequestIds == Without(old(processingRequestIds), id)
      ensures pendingRequests == if handlerThrew then old(pendingRequests) else ApprovedQueue(store.requests)
    {
      StartAction(id);
      FinishAction(id, handlerThrew, store);
      StartThenFinish(old(processingRequestIds), id);
    }
  }
}
