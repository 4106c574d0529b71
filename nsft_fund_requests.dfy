/** The NSFT fund-requests page: NSFT searches the students' fund requests,
    narrows them by status tab, and approves or rejects pending ones with a
    comment. A decision goes to the fund-request service and, when that
    succeeds, is applied to the page's own copy of the list. */
module NsftFundRequests {
  import opened Common
  import opened FundStore

  /** The search box: a case-insensitive substring of the student's name,
      the student id or the reason. */
  predicate MatchesSearch(r: FundRequest, searchTerm: string)
  {
    ContainsIgnoringCase(r.studentName, searchTerm) ||
    ContainsIgnoringCase(r.studentId, searchTerm) ||
    ContainsIgnoringCase(r.reason, searchTerm)
  }

  /** The status tabs that narrow the list; any other tab value shows all. */
  predicate IsStatusTab(tab: string)
  {
    tab == "pending" || tab == "approved" || tab == "rejected"
  }

  /** Whether a request is listed under the search term and tab. */
  predicate Listed(r: FundRequest, searchTerm: string, activeTab: string)
  {
    if activeTab == "all" then MatchesSearch(r, searchTerm)
    else if activeTab == "pending" then MatchesSearch(r, searchTerm) && r.status == "pending"
    else if activeTab == "approved" then MatchesSearch(r, searchTerm) && r.status == "approved"
    else if activeTab == "rejected" then MatchesSearch(r, searchTerm) && r.status == "rejected"
    else MatchesSearch(r, searchTerm)
  }

  function ListedFn(searchTerm: string, activeTab: string): FundRequest -> bool
  {
    r => Listed(r, searchTerm, activeTab)
  }

  /** `filteredRequests`. */
  function FilteredRequests(s: seq<FundRequest>, searchTerm: string, activeTab: string): seq<FundRequest>
  {
    Filter(s, ListedFn(searchTerm, activeTab))
  }

  /** The filtered list is the order-preserving sublist of requests that match
      the search and, on a status tab, have that status; any tab other than
      the three status tabs applies the search alone. */
  lemma FilteredRequestsSpec(s: seq<FundRequest>, searchTerm: string, activeTab: string)
    ensures Sublist(FilteredRequests(s, searchTerm, activeTab), s)
    ensures forall r :: r in FilteredRequests(s, searchTerm, activeTab) <==>
              r in s && MatchesSearch(r, searchTerm) && (IsStatusTab(activeTab) ==> r.status == activeTab)
    ensures |FilteredRequests(s, searchTerm, activeTab)| == Count(s, ListedFn(searchTerm, activeTab))
  {
    FilterSpec(s, ListedFn(searchTerm, activeTab));
  }

  /** An empty search term matches every request. */
  lemma EmptySearchMatchesAll(r: FundRequest)
    ensures MatchesSearch(r, "")
  {
    ContainsEmpty(Lower(r.studentName));
  }

  /** Approve and Reject are offered for a row only while it is pending. */
  predicate OffersActions(r: FundRequest)
  {
    r.status == "pending"
  }

  function HasId(id: int): FundRequest -> bool
  {
    (r: FundRequest) => r.id == id
  }

  /** What a decision does to one request: exactly the status patch the
      service applies. */
  function DecideFn(actionType: string, comments: string): FundRequest -> FundRequest
  {
    r => Merge(r, StatusPatch(actionType, comments))
  }

  /** The page's list after a successful decision on request `id`. */
  function Decided(s: seq<FundRequest>, id: int, actionType: string, comments: string): seq<FundRequest>
  {
    MapWhere(s, HasId(id), DecideFn(actionType, comments))
  }

  /** A decision rewrites exactly the requests with that id: their status
      becomes the action, the comments are stored, and `approvedByNSFT`
      becomes whether the action was 'approved'; every other request, and
      every other field, stays as it was, as does the length. */
  lemma DecidedSpec(s: seq<FundRequest>, id: int, actionType: string, comments: string)
    ensures |Decided(s, id, actionType, comments)| == |s|
    ensures forall i :: 0 <= i < |s| && s[i].id != id ==> Decided(s, id, actionType, comments)[i] == s[i]
    ensures forall i :: 0 <= i < |s| && s[i].id == id ==>
              Decided(s, id, actionType, comments)[i] ==
                s[i].(status := actionType, comments := Some(comments), approvedByNSFT := actionType == "approved")
  {
    MapWhereAt(s, HasId(id), DecideFn(actionType, comments));
  }

  /** A decided pending request no longer offers Approve and Reject, unless
      the action itself was 'pending'. */
  lemma DecisionClosesActions(r: FundRequest, actionType: string, comments: string)
    requires OffersActions(r)
    ensures OffersActions(Merge(r, StatusPatch(actionType, comments))) <==> actionType == "pending"
  {
    StatusPatchSpec(r, actionType, comments);
  }

  datatype PageState = PageState(
    fundRequests: seq<FundRequest>,
    selectedRequest: Option<FundRequest>,
    isViewDialogOpen: bool,
    isActionDialogOpen: bool,
    actionType: string,
    comments: string,
    searchTerm: string,
    activeTab: string)

  class FundRequestsPage {
    var fundRequests: seq<FundRequest>
    var selectedRequest: Option<FundRequest>
    var isViewDialogOpen: bool
    var isActionDialogOpen: bool
    var actionType: string
    var comments: string
    var searchTerm: string
    var activeTab: string

    function State(): PageState
      reads this
    {
      PageState(fundRequests, selectedRequest, isViewDialogOpen, isActionDialogOpen, actionType, comments, searchTerm, activeTab)
    }

    constructor ()
      ensures State() == PageState([], None, false, false, "", "", "", "all")
    {
      fundRequests := [];
      selectedRequest := None;
      isViewDialogOpen := false;
      isActionDialogOpen := false;
      actionType := "";
      comments := "";
      searchTerm := "";
      activeTab := "all";
    }

    /** The mount effect: loads every request from the service. */
    method Load(store: RequestsStore)
      modifies this
      ensures State() == old(State()).(fundRequests := store.requests)
    {
      fundRequests := store.GetAll();
    }

    method HandleView(request: FundRequest)
      modifies this
      ensures State() == old(State()).(selectedRequest := Some(request), isViewDialogOpen := true)
    {
      selectedRequest := Some(request);
      isViewDialogOpen := true;
    }

    /** `handleAction(request, action)`: opens the decision dialog. */
    method HandleAction(request: FundRequest, action: string)
      modifies this
      ensures State() == old(State()).(selectedRequest := Some(request), actionType := action, isActionDialogOpen := true)
    {
      selectedRequest := Some(request);
      actionType := action;
      isActionDialogOpen := true;
    }

    method SetComments(value: string)
      modifies this
      ensures State() == old(State()).(comments := value)
    {
      comments := value;
    }

    /** The view dialog's `onOpenChange`: closing it (or reopening it). */
    method SetViewDialogOpen(open: bool)
      modifies this
      ensures State() == old(State()).(isViewDialogOpen := open)
    {
      isViewDialogOpen := open;
    }

    method SetActionDialogOpen(open: bool)
      modifies this
      ensures State() == old(State()).(isActionDialogOpen := open)
    {
      isActionDialogOpen := open;
    }

    method SetSearchTerm(value: string)
      modifies this
      ensures State() == old(State()).(searchTerm := value)
    {
      searchTerm := value;
    }

    method SetActiveTab(value: string)
      modifies this
      ensures State() == old(State()).(activeTab := value)
    {
      activeTab := value;
    }

    /** `handleActionSubmit`: with no request selected the call throws and
        nothing changes; otherwise the service records the decision, and
        only if it reports success does the page apply the decision to its
        list, clear the comments and close the dialog. */
    method HandleActionSubmit(store: RequestsStore) returns (success: bool)
      modifies this, store
      ensures old(selectedRequest).None? ==>
                !success && State() == old(State()) && store.requests == old(store.requests)
      ensures old(selectedRequest).Some? ==>
                store.requests == Updated(old(store.requests), old(selectedRequest).value.id,
                                          StatusPatch(old(actionType), old(comments)))
      ensures old(selectedRequest).Some? ==>
                (success <==> exists j :: 0 <= j < |old(store.requests)| && old(store.requests)[j].id == old(selectedRequest).value.id)
      ensures success ==>
                State() == old(State()).(fundRequests := Decided(old(fundRequests), old(selectedRequest).value.id,
                                                                 old(actionType), old(comments)),
                                         comments := "", isActionDialogOpen := false)
      ensures !success ==> State() == old(State())
    {
      if selectedRequest.None? {
        return false;
      }
      var id := selectedRequest.value.id;
      var response := UpdateFundRequestStatus(store, id, actionType, comments);
      success := response.success;
      if success {
        fundRequests := Decided(fundRequests, id, actionType, comments);
        comments := "";
        isActionDialogOpen := false;
      }
    }

    function Filtered(): seq<FundRequest>
      reads this
    {
      FilteredRequests(fundRequests, searchTerm, activeTab)
    }
  }
}
