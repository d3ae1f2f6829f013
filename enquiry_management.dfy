/** The admin enquiry list (src/components/admin/EnquiryManagement.tsx):
    search and status filtering, status badges, and the detail dialog. */
module EnquiryManagement {

  import opened Wrappers
  import opened Text
  import Seqs

  datatype Enquiry = Enquiry(
    id: string,
    name: string,
    email: string,
    phone: string,
    courseId: Option<string>,
    courseName: Option<string>,
    message: Option<string>,
    status: string,
    notes: Option<string>,
    createdAt: string,
    updatedAt: string)

  datatype StatusOption = StatusOption(value: string, labelText: string, color: string)

  const StatusOptions := [
    StatusOption("new", "New", "bg-blue-100 text-blue-800"),
    StatusOption("contacted", "Contacted", "bg-yellow-100 text-yellow-800"),
    StatusOption("interested", "Interested", "bg-green-100 text-green-800"),
    StatusOption("converted", "Converted", "bg-purple-100 text-purple-800"),
    StatusOption("closed", "Closed", "bg-gray-100 text-gray-800")
  ]

  const FallbackColor := "bg-gray-100 text-gray-800"

  /** The status filter's wildcard. */
  const AllStatuses := "all"

  datatype Badge = Badge(labelText: string, color: string)

  /** `getStatusBadge(status)`: the first option with that value gives label and
      colour; an unknown status shows its own text in grey. */
  function StatusBadge(status: string): (b: Badge)
    ensures (forall o :: o in StatusOptions ==> o.value != status) ==> b == Badge(status, FallbackColor)
  {
    match Seqs.Find(StatusOptions, (o: StatusOption) => o.value == status)
    case Some(o) => Badge(Or(o.labelText, status), Or(o.color, FallbackColor))
    case None => Badge(status, FallbackColor)
  }

  /** The known statuses, in the order the options list them. */
  lemma StatusValues()
    ensures |StatusOptions| == 5
    ensures StatusOptions[0].value == "new" && StatusOptions[1].value == "contacted"
    ensures StatusOptions[2].value == "interested" && StatusOptions[3].value == "converted"
    ensures StatusOptions[4].value == "closed"
    ensures forall i, j :: 0 <= i < j < |StatusOptions| ==> StatusOptions[i].value != StatusOptions[j].value
    ensures forall i :: 0 <= i < |StatusOptions| ==> StatusOptions[i].labelText != StatusOptions[i].value
  {
    assert "contacted"[3] != "converted"[3];
  }

  /** A known status shows its option's label and colour. */
  lemma KnownStatusBadge(k: nat)
    requires k < |StatusOptions|
    ensures StatusBadge(StatusOptions[k].value) == Badge(StatusOptions[k].labelText, StatusOptions[k].color)
  {
    StatusValues();
    Seqs.FindFirst(StatusOptions, (o: StatusOption) => o.value == StatusOptions[k].value, k);
  }

  /** Each known status shows its capitalised label. */
  lemma StatusLabels()
    ensures StatusBadge("new").labelText == "New"
    ensures StatusBadge("contacted").labelText == "Contacted"
    ensures StatusBadge("interested").labelText == "Interested"
    ensures StatusBadge("converted").labelText == "Converted"
    ensures StatusBadge("closed").labelText == "Closed"
  {
    StatusValues();
    KnownStatusBadge(0);
    KnownStatusBadge(1);
    KnownStatusBadge(2);
    KnownStatusBadge(3);
    KnownStatusBadge(4);
  }

  /** A label differs from its raw value, so the badge shows the raw text
      exactly for unknown statuses. */
  lemma RawTextOnlyWhenUnknown(status: string)
    ensures StatusBadge(status).labelText == status <==> forall o :: o in StatusOptions ==> o.value != status
  {
    if exists o :: o in StatusOptions && o.value == status {
      var o :| o in StatusOptions && o.value == status;
      var k :| 0 <= k < |StatusOptions| && StatusOptions[k] == o;
      StatusValues();
      KnownStatusBadge(k);
    }
  }

  /** Name and email match case-insensitively, the phone number as typed, and
      the course name case-insensitively when there is one. */
  predicate MatchesSearch(e: Enquiry, term: string) {
    || Includes(Lower(e.name), Lower(term))
    || Includes(Lower(e.email), Lower(term))
    || Includes(e.phone, term)
    || (e.courseName.Some? && Includes(Lower(e.courseName.value), Lower(term)))
  }

  predicate MatchesStatus(e: Enquiry, statusFilter: string) {
    statusFilter == AllStatuses || e.status == statusFilter
  }

  predicate Keep(e: Enquiry, term: string, statusFilter: string) {
    MatchesSearch(e, term) && MatchesStatus(e, statusFilter)
  }

  /** `filteredEnquiries`. */
  function FilterEnquiries(enquiries: seq<Enquiry>, term: string, statusFilter: string): (r: seq<Enquiry>)
    ensures Seqs.IsSubsequence(r, enquiries)
    ensures forall e :: e in r <==> e in enquiries && Keep(e, term, statusFilter)
    ensures forall e :: multiset(r)[e] == if Keep(e, term, statusFilter) then multiset(enquiries)[e] else 0
  {
    Seqs.FilterIsSubsequence(enquiries, (e: Enquiry) => Keep(e, term, statusFilter));
    Seqs.FilterCounts(enquiries, (e: Enquiry) => Keep(e, term, statusFilter));
    Seqs.Filter(enquiries, (e: Enquiry) => Keep(e, term, statusFilter))
  }

  /** No search term and status 'all': every enquiry, in order. */
  lemma NoFilterKeepsAll(enquiries: seq<Enquiry>)
    ensures FilterEnquiries(enquiries, "", AllStatuses) == enquiries
  {
    forall e | e in enquiries ensures Keep(e, "", AllStatuses) {
      IncludesEmpty(Lower(e.name));
    }
    Seqs.FilterAllKept(enquiries, (e: Enquiry) => Keep(e, "", AllStatuses));
  }

  /** A specific status filter keeps only enquiries with exactly that status. */
  lemma StatusFilterIsExact(enquiries: seq<Enquiry>, term: string, statusFilter: string)
    requires statusFilter != AllStatuses
    ensures forall e :: e in FilterEnquiries(enquiries, term, statusFilter) ==> e.status == statusFilter
  {
  }

  /** Without a course name the search can match only name, email or phone. */
  lemma NoCourseNameNoCourseMatch(e: Enquiry, term: string)
    requires e.courseName.None?
    ensures MatchesSearch(e, term) <==>
      Includes(Lower(e.name), Lower(term)) || Includes(Lower(e.email), Lower(term)) || Includes(e.phone, term)
  {
  }

  /** The phone number is matched as typed, without lower-casing: on an
      enquiry whose only searchable text is its phone, a term matches exactly
      when it occurs in the phone number with the same letter case. */
  lemma PhoneMatchesAsTyped(e: Enquiry, term: string)
    requires e.name == "" && e.email == "" && e.courseName.None?
    ensures MatchesSearch(e, term) <==> Includes(e.phone, term)
  {
    if term == "" {
      IncludesEmpty(e.phone);
    } else {
      assert Lower(e.name) == "" && Lower(e.email) == "";
      IncludesNoLonger("", Lower(term));
    }
  }

  class EnquiryDesk {
    var selectedEnquiry: Option<Enquiry>
    var notes: string
    var isDialogOpen: bool

    constructor ()
      ensures selectedEnquiry == None && notes == "" && !isDialogOpen
    {
      selectedEnquiry, notes, isDialogOpen := None, "", false;
    }

    /** `handleViewEnquiry`: open the dialog on an enquiry with its notes. */
    method HandleViewEnquiry(enquiry: Enquiry)
      modifies this
      ensures selectedEnquiry == Some(enquiry) && notes == OrOpt(enquiry.notes, "") && isDialogOpen
    {
      selectedEnquiry := Some(enquiry);
      notes := OrOpt(enquiry.notes, "");
      isDialogOpen := true;
    }

    method SetNotes(text: string)
      modifies this`notes
      ensures notes == text
    {
      notes := text;
    }

    /** `handleStatusChange`: only the open enquiry with that id changes, and
        only its status. */
    method HandleStatusChange(enquiryId: string, newStatus: string)
      modifies this`selectedEnquiry
      ensures old(selectedEnquiry).Some? && old(selectedEnquiry).value.id == enquiryId ==>
        selectedEnquiry == Some(old(selectedEnquiry).value.(status := newStatus))
      ensures !(old(selectedEnquiry).Some? && old(selectedEnquiry).value.id == enquiryId) ==>
        selectedEnquiry == old(selectedEnquiry)
    {
      if selectedEnquiry.Some? && selectedEnquiry.value.id == enquiryId {
        selectedEnquiry := Some(selectedEnquiry.value.(status := newStatus));
      }
    }

    /** `handleSaveNotes`: nothing without an open enquiry; otherwise the notes
        text becomes its notes and nothing else changes. */
    method HandleSaveNotes()
      modifies this`selectedEnquiry
      ensures old(selectedEnquiry).None? ==> selectedEnquiry == None
      ensures old(selectedEnquiry).Some? ==> selectedEnquiry == Some(old(selectedEnquiry).value.(notes := Some(notes)))
    {
      if selectedEnquiry.Some? {
        selectedEnquiry := Some(selectedEnquiry.value.(notes := Some(notes)));
      }
    }
  }
}
