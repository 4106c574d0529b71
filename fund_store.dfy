/** The in-memory fund-request table (`requestsStore`) and the service calls
    built on it (`fundRequestService`): students submit requests, NSFT
    approves or rejects them, the accountant grants or rejects them. */
module FundStore {
  import opened Common

  /** One fund request. Fields the source adds only later (comments, grant and
      rejection details) are `None` until a service call writes them. */
  datatype FundRequest = FundRequest(
    id: int,
    studentId: string,
    studentName: string,
    amount: int,
    reason: string,
    bankName: string,
    accountNumber: string,
    accountHolderName: string,
    contactNumber: string,
    requestDate: string,
    status: string,
    approvedByNSFT: bool,
    comments: Option<string>,
    grantedAmount: Option<int>,
    transferDetails: Option<string>,
    grantedDate: Option<string>,
    rejectionReason: Option<string>,
    rejectedDate: Option<string>,
    rejectedBy: Option<string>)

  /** What a caller hands to `add`. `id`, `requestDate`, `status` and
      `approvedByNSFT` are optional: a caller object may carry them or not. */
  datatype RequestData = RequestData(
    id: Option<int>,
    studentId: string,
    studentName: string,
    amount: int,
    reason: string,
    bankName: string,
    accountNumber: string,
    accountHolderName: string,
    contactNumber: string,
    requestDate: Option<string>,
    status: Option<string>,
    approvedByNSFT: Option<bool>)

  /** The `updates` object given to `update`: each field present or absent. */
  datatype Patch = Patch(
    status: Option<string>,
    comments: Option<string>,
    approvedByNSFT: Option<bool>,
    grantedAmount: Option<int>,
    transferDetails: Option<string>,
    grantedDate: Option<string>,
    rejectionReason: Option<string>,
    rejectedDate: Option<string>,
    rejectedBy: Option<string>)

  /** The reply of a service call. */
  datatype Response = Response(success: bool, message: string, request: Option<FundRequest>)

  // ------------------------------------------------------------ lookups

  /** `requests.findIndex(req => req.id === id)`: the first position holding
      `id`, or -1 when no request has it. */
  function FindIndex(s: seq<FundRequest>, id: int): (r: int)
    ensures -1 <= r < |s|
    ensures r == -1 <==> forall j :: 0 <= j < |s| ==> s[j].id != id
    ensures r >= 0 ==> s[r].id == id && forall j :: 0 <= j < r ==> s[j].id != id
  {
    if s == [] then -1
    else if s[0].id == id then 0
    else
      var k := FindIndex(s[1..], id);
      if k == -1 then -1 else k + 1
  }

  /** `requests.find(req => req.id === id)`. */
  function Find(s: seq<FundRequest>, id: int): (r: Option<FundRequest>)
    ensures r.None? <==> forall j :: 0 <= j < |s| ==> s[j].id != id
    ensures r.Some? ==> r.value.id == id && r.value in s
    ensures r.Some? ==> forall j :: 0 <= j < |s| && s[j].id == id ==> r.value == s[FindIndex(s, id)]
  {
    var k := FindIndex(s, id);
    if k == -1 then None else Some(s[k])
  }

  function HasStatus(status: string): FundRequest -> bool
  {
    (r: FundRequest) => r.status == status
  }

  function ApprovedByNSFT(r: FundRequest): bool
  {
    r.approvedByNSFT
  }

  function OfStudent(studentId: string): FundRequest -> bool
  {
    (r: FundRequest) => r.studentId == studentId
  }

  /** `getByStatus`: the requests with the given status, in table order. */
  function ByStatus(s: seq<FundRequest>, status: string): seq<FundRequest>
  {
    Filter(s, HasStatus(status))
  }

  /** `getApprovedByNSFT`: the requests NSFT approved, in table order. */
  function ApprovedQueue(s: seq<FundRequest>): seq<FundRequest>
  {
    Filter(s, ApprovedByNSFT)
  }

  /** `getStudentRequests`: one student's requests, in table order. */
  function StudentRequests(s: seq<FundRequest>, studentId: string): seq<FundRequest>
  {
    Filter(s, OfStudent(studentId))
  }

  /** Each query returns the order-preserving sublist of the table made of
      exactly the requests its predicate accepts. */
  lemma QueriesAreSublists(s: seq<FundRequest>, status: string, studentId: string)
    ensures Sublist(ByStatus(s, status), s)
    ensures forall r :: r in ByStatus(s, status) <==> r in s && r.status == status
    ensures Sublist(ApprovedQueue(s), s)
    ensures forall r :: r in ApprovedQueue(s) <==> r in s && r.approvedByNSFT
    ensures Sublist(StudentRequests(s, studentId), s)
    ensures forall r :: r in StudentRequests(s, studentId) <==> r in s && r.studentId == studentId
  {
    FilterSpec(s, HasStatus(status));
    FilterSpec(s, ApprovedByNSFT);
    FilterSpec(s, OfStudent(studentId));
  }

  // ------------------------------------------------------------ add

  /** `Math.max(...requests.map(r => r.id))` for a non-empty table. */
  function MaxId(s: seq<FundRequest>): (m: int)
    requires |s| > 0
    ensures forall j :: 0 <= j < |s| ==> s[j].id <= m
    ensures exists j :: 0 <= j < |s| && s[j].id == m
  {
    if |s| == 1 then s[0].id
    else
      var rest := MaxId(s[1..]);
      assert forall j :: 1 <= j < |s| ==> s[j] == s[1..][j - 1];
      if s[0].id >= rest then s[0].id else rest
  }

  /** The id `add` generates: 1 for an empty table, else one above the largest. */
  function NextId(s: seq<FundRequest>): int
  {
    if |s| > 0 then MaxId(s) + 1 else 1
  }

  /** The generated id is held by no request in the table, and it exceeds
      every id already there. */
  lemma NextIdFresh(s: seq<FundRequest>)
    ensures forall j :: 0 <= j < |s| ==> s[j].id < NextId(s)
    ensures NextId(s) == 1 <==> |s| == 0 || MaxId(s) == 0
  {
  }

  /** `{ id: newId, ...requestData, requestDate: today, status: 'pending',
      approvedByNSFT: false }`: the caller's fields are spread after `id`, so a
      caller-supplied id replaces the generated one, while the three fields
      written last cannot be overridden. */
  function NewRequest(s: seq<FundRequest>, data: RequestData, today: string): FundRequest
  {
    FundRequest(
      id := if data.id.Some? then data.id.value else NextId(s),
      studentId := data.studentId,
      studentName := data.studentName,
      amount := data.amount,
      reason := data.reason,
      bankName := data.bankName,
      accountNumber := data.accountNumber,
      accountHolderName := data.accountHolderName,
      contactNumber := data.contactNumber,
      requestDate := today,
      status := "pending",
      approvedByNSFT := false,
      comments := None,
      grantedAmount := None,
      transferDetails := None,
      grantedDate := None,
      rejectionReason := None,
      rejectedDate := None,
      rejectedBy := None)
  }

  /** A new request carries the caller's data, is pending and not
      NSFT-approved whatever the caller sent, has no decision recorded yet,
      and its id is fresh unless the caller supplied one. */
  lemma NewRequestSpec(s: seq<FundRequest>, data: RequestData, today: string)
    ensures var r := NewRequest(s, data, today);
            && r.studentId == data.studentId && r.studentName == data.studentName
            && r.amount == data.amount && r.reason == data.reason
            && r.bankName == data.bankName && r.accountNumber == data.accountNumber
            && r.accountHolderName == data.accountHolderName && r.contactNumber == data.contactNumber
    ensures var r := NewRequest(s, data, today);
            && r.comments.None? && r.grantedAmount.None? && r.transferDetails.None? && r.grantedDate.None?
            && r.rejectionReason.None? && r.rejectedDate.None? && r.rejectedBy.None?
    ensures NewRequest(s, data, today).status == "pending"
    ensures !NewRequest(s, data, today).approvedByNSFT
    ensures NewRequest(s, data, today).requestDate == today
    ensures data.id.None? ==> forall j :: 0 <= j < |s| ==> s[j].id != NewRequest(s, data, today).id
    ensures data.id.Some? ==> NewRequest(s, data, today).id == data.id.value
  {
    NextIdFresh(s);
  }

  // ------------------------------------------------------------ update

  function Pick<T>(update: Option<T>, current: T): T
  {
    if update.Some? then update.value else current
  }

  /** `{ ...request, ...updates }`. */
  function Merge(r: FundRequest, p: Patch): FundRequest
  {
    r.(status := Pick(p.status, r.status),
       comments := if p.comments.Some? then p.comments else r.comments,
       approvedByNSFT := Pick(p.approvedByNSFT, r.approvedByNSFT),
       grantedAmount := if p.grantedAmount.Some? then p.grantedAmount else r.grantedAmount,
       transferDetails := if p.transferDetails.Some? then p.transferDetails else r.transferDetails,
       grantedDate := if p.grantedDate.Some? then p.grantedDate else r.grantedDate,
       rejectionReason := if p.rejectionReason.Some? then p.rejectionReason else r.rejectionReason,
       rejectedDate := if p.rejectedDate.Some? then p.rejectedDate else r.rejectedDate,
       rejectedBy := if p.rejectedBy.Some? then p.rejectedBy else r.rejectedBy)
  }

  /** The table after `update(id, updates)`: the first request holding `id`
      is merged with the patch; with no such request the table is unchanged. */
  function Updated(s: seq<FundRequest>, id: int, p: Patch): seq<FundRequest>
  {
    var k := FindIndex(s, id);
    if k == -1 then s else s[k := Merge(s[k], p)]
  }

  /** `update` touches at most one request, the first holding `id`; the length
      and every other request stay as they were, and an absent id changes
      nothing. */
  lemma UpdatedSpec(s: seq<FundRequest>, id: int, p: Patch)
    ensures |Updated(s, id, p)| == |s|
    ensures FindIndex(s, id) == -1 ==> Updated(s, id, p) == s
    ensures forall j :: 0 <= j < |s| && j != FindIndex(s, id) ==> Updated(s, id, p)[j] == s[j]
    ensures FindIndex(s, id) >= 0 ==> Updated(s, id, p)[FindIndex(s, id)] == Merge(s[FindIndex(s, id)], p)
  {
  }

  /** Applying the same patch twice gives what applying it once gives, so a
      page that re-merges a patch the store has already applied to the same
      record ends with the store's record. */
  lemma MergeIdempotent(r: FundRequest, p: Patch)
    ensures Merge(Merge(r, p), p) == Merge(r, p)
  {
  }

  /** Merging keeps the id and the submitted details; every field the patch
      carries takes the patch's value and every field it leaves out keeps the
      request's value. */
  lemma MergeKeepsUnpatched(r: FundRequest, p: Patch)
    ensures var m := Merge(r, p);
            && m.id == r.id && m.studentId == r.studentId && m.studentName == r.studentName
            && m.amount == r.amount && m.reason == r.reason && m.requestDate == r.requestDate
            && m.bankName == r.bankName && m.accountNumber == r.accountNumber
            && m.accountHolderName == r.accountHolderName && m.contactNumber == r.contactNumber
            && (p.status.None? ==> m.status == r.status)
            && (p.status.Some? ==> m.status == p.status.value)
            && (p.comments.None? ==> m.comments == r.comments)
            && (p.comments.Some? ==> m.comments == p.comments)
            && (p.approvedByNSFT.None? ==> m.approvedByNSFT == r.approvedByNSFT)
            && (p.approvedByNSFT.Some? ==> m.approvedByNSFT == p.approvedByNSFT.value)
            && (p.grantedAmount.None? ==> m.grantedAmount == r.grantedAmount)
            && (p.grantedAmount.Some? ==> m.grantedAmount == p.grantedAmount)
            && (p.transferDetails.None? ==> m.transferDetails == r.transferDetails)
            && (p.transferDetails.Some? ==> m.transferDetails == p.transferDetails)
            && (p.grantedDate.None? ==> m.grantedDate == r.grantedDate)
            && (p.grantedDate.Some? ==> m.grantedDate == p.grantedDate)
            && (p.rejectionReason.None? ==> m.rejectionReason == r.rejectionReason)
            && (p.rejectionReason.Some? ==> m.rejectionReason == p.rejectionReason)
            && (p.rejectedDate.None? ==> m.rejectedDate == r.rejectedDate)
            && (p.rejectedDate.Some? ==> m.rejectedDate == p.rejectedDate)
            && (p.rejectedBy.None? ==> m.rejectedBy == r.rejectedBy)
            && (p.rejectedBy.Some? ==> m.rejectedBy == p.rejectedBy)
  {
  }

  // ------------------------------------------------------- service patches

  /** The patch of `updateFundRequestStatus(requestId, status, comments)`. */
  function StatusPatch(status: string, comments: string): Patch
  {
    Patch(Some(status), Some(comments), Some(status == "approved"), None, None, None, None, None, None)
  }

  /** The patch of `grantFundRequest(requestId, amount, transferDetails)`. */
  function GrantPatch(amount: int, transferDetails: string, today: string): Patch
  {
    Patch(Some("granted"), None, None, Some(amount), Some(transferDetails), Some(today), None, None, None)
  }

  /** The patch of `rejectFundRequest(requestId, reason)`. */
  function RejectPatch(reason: string, today: string): Patch
  {
    Patch(Some("rejected"), None, None, None, None, None, Some(reason), Some(today), Some("accountant"))
  }

  /** An NSFT decision sets the status and comments, marks the request
      NSFT-approved exactly when the decision is 'approved', and changes
      nothing else. */
  lemma StatusPatchSpec(r: FundRequest, status: string, comments: string)
    ensures Merge(r, StatusPatch(status, comments))
            == r.(status := status, comments := Some(comments), approvedByNSFT := status == "approved")
  {
  }

  /** A grant sets status 'granted', the granted amount, the transfer details
      and today's date, and changes nothing else: it neither needs nor changes
      the NSFT approval flag, and leaves the comments and any rejection
      details as they were. */
  lemma GrantPatchSpec(r: FundRequest, amount: int, transferDetails: string, today: string)
    ensures Merge(r, GrantPatch(amount, transferDetails, today))
            == r.(status := "granted", grantedAmount := Some(amount), transferDetails := Some(transferDetails),
                  grantedDate := Some(today))
  {
  }

  /** An accountant rejection records the reason, today's date and that the
      accountant rejected, and changes nothing else: the NSFT approval flag,
      the comments and any grant details stay as they were. */
  lemma RejectPatchSpec(r: FundRequest, reason: string, today: string)
    ensures Merge(r, RejectPatch(reason, today))
            == r.(status := "rejected", rejectionReason := Some(reason), rejectedDate := Some(today),
                  rejectedBy := Some("accountant"))
  {
  }

  /** Since neither accountant action clears `approvedByNSFT`, a request the
      accountant granted or rejected stays in the NSFT-approved queue. */
  lemma {:induction false} DecidedRequestsStayQueued(s: seq<FundRequest>, id: int, p: Patch)
    requires p.approvedByNSFT.None?
    ensures |ApprovedQueue(Updated(s, id, p))| == |ApprovedQueue(s)|
    ensures forall r :: r in ApprovedQueue(s) && r.id != id ==> r in ApprovedQueue(Updated(s, id, p))
  {
    var t := Updated(s, id, p);
    UpdatedSpec(s, id, p);
    assert forall j :: 0 <= j < |s| ==> ApprovedByNSFT(t[j]) == ApprovedByNSFT(s[j]);
    CountAgrees(s, t);
    FilterSpec(s, ApprovedByNSFT);
    FilterSpec(t, ApprovedByNSFT);
    forall r | r in ApprovedQueue(s) && r.id != id
      ensures r in ApprovedQueue(t)
    {
      var j :| 0 <= j < |s| && s[j] == r;
      assert t[j] == r;
    }
  }

  lemma {:induction false} CountAgrees(s: seq<FundRequest>, t: seq<FundRequest>)
    requires |s| == |t|
    requires forall j :: 0 <= j < |s| ==> ApprovedByNSFT(t[j]) == ApprovedByNSFT(s[j])
    ensures Count(s, ApprovedByNSFT) == Count(t, ApprovedByNSFT)
  {
    if s != [] {
      CountAgrees(s[1..], t[1..]);
    }
  }

  // ------------------------------------------------------------ the table

  /** `requestsStore`: the table itself, mutated in place by `add` and `update`. */
  class RequestsStore {
    var requests: seq<FundRequest>

    constructor (initial: seq<FundRequest>)
      ensures requests == initial
    {
      requests := initial;
    }

    /** `getAll`. */
    function GetAll(): seq<FundRequest>
      reads this
    {
      requests
    }

    /** `getById`. */
    function GetById(id: int): Option<FundRequest>
      reads this
    {
      Find(requests, id)
    }

    /** `getByStatus`. */
    function GetByStatus(status: string): seq<FundRequest>
      reads this
    {
      ByStatus(requests, status)
    }

    /** `getApprovedByNSFT`. */
    function GetApprovedByNSFT(): seq<FundRequest>
      reads this
    {
      ApprovedQueue(requests)
    }

    /** `add`: appends one new request at the end and returns it. */
    method Add(data: RequestData, today: string) returns (r: FundRequest)
      modifies this
      ensures r == NewRequest(old(requests), data, today)
      ensures requests == old(requests) + [r]
      ensures r.status == "pending" && !r.approvedByNSFT
      ensures data.id.None? ==> forall j :: 0 <= j < |old(requests)| ==> old(requests)[j].id != r.id
    {
      r := NewRequest(requests, data, today);
      NewRequestSpec(requests, data, today);
      requests := requests + [r];
    }

    /** `update`: merges `updates` into the first request holding `id` and
      returns it, or returns null (`None`) and changes nothing. */
    method Update(id: int, updates: Patch) returns (r: Option<FundRequest>)
      modifies this
      ensures requests == Updated(old(requests), id, updates)
      ensures r.None? <==> forall j :: 0 <= j < |old(requests)| ==> old(requests)[j].id != id
      ensures r.None? ==> requests == old(requests)
      ensures r.Some? ==> r.value == Merge(old(requests)[FindIndex(old(requests), id)], updates)
      ensures |requests| == |old(requests)|
      ensures forall j :: 0 <= j < |requests| && j != FindIndex(old(requests), id) ==> requests[j] == old(requests)[j]
    {
      var index := FindIndex(requests, id);
      if index != -1 {
        requests := requests[index := Merge(requests[index], updates)];
        r := Some(requests[index]);
      } else {
        r := None;
      }
    }
  }

  // ------------------------------------------------------------ the service

  /** `submitFundRequest`: adds the request and always reports success. */
  method SubmitFundRequest(store: RequestsStore, data: RequestData, today: string) returns (resp: Response)
    modifies store
    ensures store.requests == old(store.requests) + [NewRequest(old(store.requests), data, today)]
    ensures resp == Response(true, "Fund request submitted successfully", Some(NewRequest(old(store.requests), data, today)))
  {
    var r := store.Add(data, today);
    resp := Response(true, "Fund request submitted successfully", Some(r));
  }

  /** `updateFundRequestStatus`: the NSFT decision. It succeeds exactly when
      some request holds the id, and then only that request changes. */
  method UpdateFundRequestStatus(store: RequestsStore, requestId: int, status: string, comments: string)
      returns (resp: Response)
    modifies store
    ensures store.requests == Updated(old(store.requests), requestId, StatusPatch(status, comments))
    ensures resp.success <==> exists j :: 0 <= j < |old(store.requests)| && old(store.requests)[j].id == requestId
    ensures resp.success ==> resp == Response(true, "Fund request " + status + " successfully",
                                              Some(Merge(old(store.requests)[FindIndex(old(store.requests), requestId)],
                                                         StatusPatch(status, comments))))
    ensures !resp.success ==> resp == Response(false, "Request not found", None)
    ensures resp.success ==> resp.request.Some? && resp.request.value.approvedByNSFT == (status == "approved")
    ensures resp.success ==> resp.request.value.status == status
  {
    var updated := store.Update(requestId, StatusPatch(status, comments));
    if updated.Some? {
      resp := Response(true, "Fund request " + status + " successfully", updated);
    } else {
      resp := Response(false, "Request not found", None);
    }
  }

  /** `grantFundRequest`: succeeds for any existing id, approved by NSFT or not. */
  method GrantFundRequest(store: RequestsStore, requestId: int, amount: int, transferDetails: string, today: string)
      returns (resp: Response)
    modifies store
    ensures store.requests == Updated(old(store.requests), requestId, GrantPatch(amount, transferDetails, today))
    ensures resp.success <==> exists j :: 0 <= j < |old(store.requests)| && old(store.requests)[j].id == requestId
    ensures resp.success ==> resp == Response(true, "Fund granted successfully",
                                              Some(Merge(old(store.requests)[FindIndex(old(store.requests), requestId)],
                                                         GrantPatch(amount, transferDetails, today))))
    ensures !resp.success ==> resp == Response(false, "Request not found", None)
  {
    var updated := store.Update(requestId, GrantPatch(amount, transferDetails, today));
    if updated.Some? {
      resp := Response(true, "Fund granted successfully", updated);
    } else {
      resp := Response(false, "Request not found", None);
    }
  }

  /** `rejectFundRequest`: the accountant's rejection. */
  method RejectFundRequest(store: RequestsStore, requestId: int, reason: string, today: string)
      returns (resp: Response)
    modifies store
    ensures store.requests == Updated(old(store.requests), requestId, RejectPatch(reason, today))
    ensures resp.success <==> exists j :: 0 <= j < |old(store.requests)| && old(store.requests)[j].id == requestId
    ensures resp.success ==> resp == Response(true, "Fund request rejected successfully",
                                              Some(Merge(old(store.requests)[FindIndex(old(store.requests), requestId)],
                                                         RejectPatch(reason, today))))
    ensures !resp.success ==> resp == Response(false, "Request not found", None)
  {
    var updated := store.Update(requestId, RejectPatch(reason, today));
    if updated.Some? {
      resp := Response(true, "Fund request rejected successfully", updated);
    } else {
      resp := Response(false, "Request not found", None);
    }
  }
}
