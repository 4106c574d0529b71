/** The CR's add-donation page: the CR records cash a student paid by adding
    it to the student's running total, which also decides whether the
    student shows as 'Paid' or 'Unpaid'. The list can be searched, narrowed
    by status and paged seven at a time. */
module AddDonation {
  import opened Common
  import opened Paging

  const ItemsPerPage: nat := 7

  datatype StudentRow = StudentRow(id: int, name: string, cms: string, amountPaid: int, status: string)

  predicate MatchesSearch(t: StudentRow, searchTerm: string)
  {
    ContainsIgnoringCase(t.name, searchTerm) || ContainsIgnoringCase(t.cms, searchTerm)
  }

  /** The status filter: 'all', or the lowercased status must equal it. */
  predicate MatchesStatus(t: StudentRow, filterStatus: string)
  {
    filterStatus == "all" || Lower(t.status) == filterStatus
  }

  function SearchFn(searchTerm: string): StudentRow -> bool
  {
    t => MatchesSearch(t, searchTerm)
  }

  function StatusFn(filterStatus: string): StudentRow -> bool
  {
    t => MatchesStatus(t, filterStatus)
  }

  function ShownFn(searchTerm: string, filterStatus: string): StudentRow -> bool
  {
    t => MatchesSearch(t, searchTerm) && MatchesStatus(t, filterStatus)
  }

  /** `filteredStudents`: the search filter, then the status filter. */
  function FilteredStudents(s: seq<StudentRow>, searchTerm: string, filterStatus: string): seq<StudentRow>
  {
    Filter(Filter(s, SearchFn(searchTerm)), StatusFn(filterStatus))
  }

  /** The shown list is the order-preserving sublist of students that match
      the search and the status filter. */
  lemma FilteredStudentsSpec(s: seq<StudentRow>, searchTerm: string, filterStatus: string)
    ensures Sublist(FilteredStudents(s, searchTerm, filterStatus), s)
    ensures forall t :: t in FilteredStudents(s, searchTerm, filterStatus) <==>
              t in s && MatchesSearch(t, searchTerm) && MatchesStatus(t, filterStatus)
    ensures |FilteredStudents(s, searchTerm, filterStatus)| == Count(s, ShownFn(searchTerm, filterStatus))
  {
    FilterFilter(s, SearchFn(searchTerm), StatusFn(filterStatus), ShownFn(searchTerm, filterStatus));
    FilterSpec(s, ShownFn(searchTerm, filterStatus));
  }

  /** The 'paid' and 'unpaid' buttons pick out the students whose status is
      'Paid' and 'Unpaid'. */
  lemma PaidButtonsMatchStatuses(t: StudentRow)
    ensures t.status == "Paid" ==> MatchesStatus(t, "paid") && !MatchesStatus(t, "unpaid")
    ensures t.status == "Unpaid" ==> MatchesStatus(t, "unpaid") && !MatchesStatus(t, "paid")
  {
    LowerAt("Paid");
    LowerAt("Unpaid");
    LowerAt("paid");
    assert Lower("Paid") == "paid";
    assert Lower("Unpaid") == "unpaid";
  }

  /** The status a total yields. */
  function StatusFor(amountPaid: int): string
  {
    if amountPaid > 0 then "Paid" else "Unpaid"
  }

  /** A student row whose status agrees with its total. */
  predicate Consistent(t: StudentRow)
  {
    t.status == StatusFor(t.amountPaid)
  }

  predicate AllConsistent(s: seq<StudentRow>)
  {
    forall i :: 0 <= i < |s| ==> Consistent(s[i])
  }

  function HasId(id: int): StudentRow -> bool
  {
    (t: StudentRow) => t.id == id
  }

  function DonateFn(amountToAdd: int): StudentRow -> StudentRow
  {
    (t: StudentRow) => t.(amountPaid := t.amountPaid + amountToAdd, status := StatusFor(t.amountPaid + amountToAdd))
  }

  /** The list after `handleDonate` for student `id`; the entered text counts
      as 0 when it does not parse (`parseFloat(...) || 0`). */
  function Donated(s: seq<StudentRow>, id: int, donation: Number): seq<StudentRow>
  {
    MapWhere(s, HasId(id), DonateFn(OrZero(donation)))
  }

  /** A donation adds the parsed amount to the total of the students with
      that id and sets their status from the new total; every other student
      is left as is. Whatever the statuses were before, the donated rows'
      statuses agree with their totals afterwards, and a list whose statuses
      all agreed still does. */
  lemma DonatedSpec(s: seq<StudentRow>, id: int, donation: Number)
    ensures |Donated(s, id, donation)| == |s|
    ensures forall i :: 0 <= i < |s| && s[i].id != id ==> Donated(s, id, donation)[i] == s[i]
    ensures forall i :: 0 <= i < |s| && s[i].id == id ==>
              Donated(s, id, donation)[i].amountPaid == s[i].amountPaid + OrZero(donation) &&
              Donated(s, id, donation)[i].id == id &&
              Donated(s, id, donation)[i].name == s[i].name &&
              Donated(s, id, donation)[i].cms == s[i].cms &&
              Consistent(Donated(s, id, donation)[i])
    ensures AllConsistent(s) ==> AllConsistent(Donated(s, id, donation))
  {
    MapWhereAt(s, HasId(id), DonateFn(OrZero(donation)));
  }

  /** On a list whose statuses agree with the totals, a donation whose text
      does not parse, or parses to 0, changes nothing. */
  lemma EmptyDonationChangesNothing(s: seq<StudentRow>, id: int, donation: Number)
    requires AllConsistent(s)
    requires donation == NaN || donation == Num(0)
    ensures Donated(s, id, donation) == s
  {
    DonatedSpec(s, id, donation);
  }

  datatype PageState = PageState(
    students: seq<StudentRow>,
    searchTerm: string,
    isDonateModalOpen: bool,
    donatingStudent: Option<StudentRow>,
    donationAmount: Number,
    currentPage: int,
    filterStatus: string)

  class AddDonationPage {
    var students: seq<StudentRow>
    var searchTerm: string
    var isDonateModalOpen: bool
    var donatingStudent: Option<StudentRow>
    /** The amount field, as `parseFloat` reads it (empty text is NaN). */
    var donationAmount: Number
    var currentPage: int
    var filterStatus: string

    function State(): PageState
      reads this
    {
      PageState(students, searchTerm, isDonateModalOpen, donatingStudent, donationAmount, currentPage, filterStatus)
    }

    /** The page as first rendered, over its seed list. */
    constructor (initial: seq<StudentRow>)
      ensures State() == PageState(initial, "", false, None, NaN, 1, "all")
    {
      students := initial;
      searchTerm := "";
      isDonateModalOpen := false;
      donatingStudent := None;
      donationAmount := NaN;
      currentPage := 1;
      filterStatus := "all";
    }

    method HandleSearchChange(value: string)
      modifies this
      ensures State() == old(State()).(searchTerm := value, currentPage := 1)
    {
      searchTerm := value;
      currentPage := 1;
    }

    /** `openDonateModal(student)`: the amount field starts empty. */
    method OpenDonateModal(student: StudentRow)
      modifies this
      ensures State() == old(State()).(donatingStudent := Some(student), donationAmount := NaN, isDonateModalOpen := true)
    {
      donatingStudent := Some(student);
      donationAmount := NaN;
      isDonateModalOpen := true;
    }

    method CloseDonateModal()
      modifies this
      ensures State() == old(State()).(isDonateModalOpen := false, donatingStudent := None, donationAmount := NaN)
    {
      isDonateModalOpen := false;
      donatingStudent := None;
      donationAmount := NaN;
    }

    method HandleDonationAmountChange(value: Number)
      modifies this
      ensures State() == old(State()).(donationAmount := value)
    {
      donationAmount := value;
    }

    /** `handleDonate`: with a student chosen, adds the donation to that
        student's total and closes the modal; otherwise does nothing. */
    method HandleDonate()
      modifies this
      ensures old(donatingStudent).None? ==> State() == old(State())
      ensures old(donatingStudent).Some? ==>
                State() == old(State()).(students := Donated(old(students), old(donatingStudent).value.id, old(donationAmount)),
                                         isDonateModalOpen := false, donatingStudent := None, donationAmount := NaN)
      ensures AllConsistent(old(students)) ==> AllConsistent(students)
    {
      if donatingStudent.Some? {
        DonatedSpec(students, donatingStudent.value.id, donationAmount);
        students := Donated(students, donatingStudent.value.id, donationAmount);
        CloseDonateModal();
      }
    }

    method HandleFilterChange(status: string)
      modifies this
      ensures State() == old(State()).(filterStatus := status, currentPage := 1)
    {
      filterStatus := status;
      currentPage := 1;
    }

    function Shown(): seq<StudentRow>
      reads this
    {
      FilteredStudents(students, searchTerm, filterStatus)
    }

    function CurrentStudents(): seq<StudentRow>
      reads this
    {
      PageOf(Shown(), currentPage, ItemsPerPage)
    }

    function TotalPagesNow(): nat
      reads this
    {
      TotalPages(|Shown()|, ItemsPerPage)
    }

    method HandleNextPage()
      modifies this
      ensures State() == old(State()).(currentPage := NextPage(old(currentPage), TotalPagesNow()))
    {
      currentPage := if currentPage < TotalPagesNow() then currentPage + 1 else currentPage;
    }

    method HandlePrevPage()
      modifies this
      ensures State() == old(State()).(currentPage := PrevPage(old(currentPage)))
    {
      currentPage := if currentPage > 1 then currentPage - 1 else currentPage;
    }
  }
}
