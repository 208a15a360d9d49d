/** Support issues: the controller's submission (required fields, the schema's
    enums, the forced "pending" status and the five-day resolution estimate),
    its status update (an allowed-status check, then an unguarded overwrite),
    and the client service's default-filling of a submission. Time is
    milliseconds since the epoch, passed in as `now`. */
module Issues {
  import opened Common

  const FiveDaysMs: int := 5 * 24 * 60 * 60 * 1000

  datatype IssueStatus = Pending | InProgress | Resolved | Cancelled

  function ParseIssueStatus(s: string): Option<IssueStatus> {
    if s == "pending" then Some(Pending) else if s == "in-progress" then Some(InProgress)
    else if s == "resolved" then Some(Resolved) else if s == "cancelled" then Some(Cancelled) else None
  }

  function IssueStatusText(s: IssueStatus): string {
    match s
    case Pending => "pending"
    case InProgress => "in-progress"
    case Resolved => "resolved"
    case Cancelled => "cancelled"
  }

  /** The allowed status list and its spellings are the same four names. */
  lemma IssueStatusSpellings(s: IssueStatus)
    ensures ParseIssueStatus(IssueStatusText(s)) == Some(s)
  {
  }

  predicate ValidIssueType(s: string) {
    s in ["rental", "purchase", "support", "technical", "billing", "general", "other"]
  }

  /** The pet category enum; an absent category is stored as "". */
  predicate ValidPetCategory(s: string) {
    s in ["dog", "cat", "bird", "fish", "other", ""]
  }

  /** The fields of a submission the controller reads; absent strings are "". */
  datatype IssueBody = IssueBody(name: string, email: string, phone: string, issueType: string,
                                 petCategory: string, petName: string, description: string, status: string)

  datatype Issue = Issue(id: string, name: string, email: string, phone: string, issueType: string,
                         petCategory: string, petName: string, description: string,
                         status: IssueStatus, createdAt: int, lastUpdated: int, expectedResolutionDate: int)

  const RequiredMessage := "Name, email, phone, issue type, and description are required"

  /** The status of a Mongoose `ValidationError`; its generated text is abbreviated. */
  const ValidationMessage := "Issue validation failed"

  predicate MissingIssueFields(b: IssueBody) {
    b.name == "" || b.email == "" || b.phone == "" || b.issueType == "" || b.description == ""
  }

  /** `submitIssue`: the five required fields, then the schema's enums, then
      the stored issue, whose status is "pending" whatever the body says. */
  function SubmitIssue(store: seq<Issue>, b: IssueBody, now: int, newId: string): (r: (Response<Issue>, seq<Issue>))
    ensures r.0 == Failure(400, RequiredMessage) <==> MissingIssueFields(b)
    ensures r.0.Failure? ==> r.0.status == 400 && r.1 == store
    ensures r.0.Success? <==> !MissingIssueFields(b) && ValidIssueType(b.issueType) && ValidPetCategory(b.petCategory)
    ensures r.0.Success? ==>
      && r.0.status == 201 && r.1 == store + [r.0.body]
      && r.0.body.id == newId && r.0.body.status == Pending
      && r.0.body.name == b.name && r.0.body.email == b.email && r.0.body.phone == b.phone
      && r.0.body.issueType == b.issueType && r.0.body.description == b.description
      && r.0.body.petCategory == b.petCategory && r.0.body.petName == b.petName
      && r.0.body.createdAt == now && r.0.body.lastUpdated == now
      && r.0.body.expectedResolutionDate == now + FiveDaysMs
  {
    if MissingIssueFields(b) then (Failure(400, RequiredMessage), store)
    else if !ValidIssueType(b.issueType) || !ValidPetCategory(b.petCategory) then (Failure(400, ValidationMessage), store)
    else
      var issue := Issue(newId, b.name, b.email, b.phone, b.issueType, b.petCategory, b.petName, b.description,
                         Pending, now, now, now + FiveDaysMs);
      (Success(201, issue), store + [issue])
  }

  /** The status a client sends has no effect on the submission. */
  lemma SubmittedStatusIgnored(store: seq<Issue>, b: IssueBody, status: string, now: int, newId: string)
    ensures SubmitIssue(store, b.(status := status), now, newId) == SubmitIssue(store, b, now, newId)
  {
  }

  // ---------------------------------------------------------------------------
  // PUT /api/issues/:issueId/status

  /** The text a template literal gives an absent status. */
  function StatusShown(status: Option<string>): string {
    if status.Some? then status.value else "undefined"
  }

  function HasIssueId(id: string): Issue -> bool {
    (i: Issue) => i.id == id
  }

  /** `updateIssueStatus`: the status is checked first, then the id's format
      (a cast failure is a 400 here), then the issue is looked up and its
      status and `lastUpdated` overwritten, with no check of its current status. */
  function UpdateIssueStatus(store: seq<Issue>, issueId: string, status: Option<string>, now: int)
    : (r: (Response<Issue>, seq<Issue>))
    ensures (status.None? || ParseIssueStatus(status.value).None?) <==>
              r.0 == Failure(400, "Invalid status value: " + StatusShown(status))
    ensures status.Some? && ParseIssueStatus(status.value).Some? && !IsObjectIdText(issueId) ==>
              r.0 == Failure(400, "Invalid Issue ID format")
    ensures r.0.Failure? ==> r.1 == store && (r.0.status == 400 || r.0.status == 404)
    ensures status.Some? && ParseIssueStatus(status.value).Some? && IsObjectIdText(issueId)
            && (forall i :: 0 <= i < |store| ==> store[i].id != issueId) ==>
              r.0 == Failure(404, "Issue not found")
    ensures r.0.Success? <==>
      && status.Some? && ParseIssueStatus(status.value).Some? && IsObjectIdText(issueId)
      && exists i :: 0 <= i < |store| && store[i].id == issueId
    ensures r.0.Success? ==>
      && r.0.status == 200 && Some(r.0.body.status) == ParseIssueStatus(status.value)
      && r.0.body.lastUpdated == now && r.0.body.id == issueId
      && exists i :: 0 <= i < |store| && store[i].id == issueId
                     && (forall j :: 0 <= j < i ==> store[j].id != issueId)
                     && r.0.body == store[i].(status := r.0.body.status, lastUpdated := now)
                     && r.1 == store[i := r.0.body]
  {
    var s := if status.Some? then ParseIssueStatus(status.value) else None;
    if s.None? then
      (Failure(400, "Invalid status value: " + StatusShown(status)), store)
    else if !IsObjectIdText(issueId) then (Failure(400, "Invalid Issue ID format"), store)
    else match FindIndex(store, HasIssueId(issueId))
      case None => (Failure(404, "Issue not found"), store)
      case Some(i) =>
        var updated := store[i].(status := s.value, lastUpdated := now);
        (Success(200, updated), store[i := updated])
  }

  /** No transition guard: any allowed status can be set on a stored issue
      whatever its current status, resolved and cancelled issues included. */
  lemma AnyTransitionAllowed(store: seq<Issue>, i: nat, target: IssueStatus, now: int)
    requires i < |store| && IsObjectIdText(store[i].id)
    requires forall j :: 0 <= j < i ==> store[j].id != store[i].id
    ensures var r := UpdateIssueStatus(store, store[i].id, Some(IssueStatusText(target)), now);
            r.0 == Success(200, store[i].(status := target, lastUpdated := now))
            && r.1 == store[i := store[i].(status := target, lastUpdated := now)]
  {
    IssueStatusSpellings(target);
    var p := HasIssueId(store[i].id);
    assert p(store[i]);
    assert FindIndex(store, p) == Some(i);
  }

  // ---------------------------------------------------------------------------
  // The client service's default filling

  datatype PetDetails = PetDetails(category: string, name: string, id: string)

  /** A submission as the client builds it; absent strings are "" and absent
      timestamps `None`. */
  datatype IssueData = IssueData(
    name: string, email: string, phone: string, issueType: string, description: string,
    petCategory: string, petName: string, petId: string,
    status: string, createdAt: Option<int>, lastUpdated: Option<int>, expectedResolutionDate: Option<int>,
    assignedTo: string, resolutionNotes: string, priority: string, category: string,
    petDetails: Option<PetDetails>)

  const SupportAddress := "support@petrental.com"
  const ReceivedNote := "Your issue has been received and will be addressed by our support team."
  const NotSpecified := "Not specified"

  function TimeOr(t: Option<int>, d: int): int {
    if t.Some? then t.value else d
  }

  /** `issueData.petDetails?.field || fallback || "Not specified"`. */
  function DetailOr(pd: Option<PetDetails>, pick: PetDetails -> string, fallback: string): (r: string)
    ensures r != ""
    ensures pd.Some? && pick(pd.value) != "" ==> r == pick(pd.value)
    ensures (pd.None? || pick(pd.value) == "") && fallback != "" ==> r == fallback
    ensures (pd.None? || pick(pd.value) == "") && fallback == "" ==> r == NotSpecified
  {
    OrElse(if pd.Some? then pick(pd.value) else "", OrElse(fallback, NotSpecified))
  }

  /** The `dataToSubmit` of the client's `submitIssue`: every field of the
      input kept, the status, timestamps, assignee, notes and priority
      defaulted when empty, the category taken from the issue type, and each
      pet detail taken from the nested pet details, else from the flat pet
      field, else "Not specified". */
  function Normalise(d: IssueData, now: int): (r: IssueData)
    ensures r.(status := d.status, createdAt := d.createdAt, lastUpdated := d.lastUpdated,
               expectedResolutionDate := d.expectedResolutionDate, assignedTo := d.assignedTo,
               resolutionNotes := d.resolutionNotes, priority := d.priority, category := d.category,
               petDetails := d.petDetails) == d
    ensures r.status != "" && (d.status != "" ==> r.status == d.status) && (d.status == "" ==> r.status == "pending")
    ensures r.priority != "" && (d.priority != "" ==> r.priority == d.priority) && (d.priority == "" ==> r.priority == "medium")
    ensures d.assignedTo == "" ==> r.assignedTo == SupportAddress
    ensures d.assignedTo != "" ==> r.assignedTo == d.assignedTo
    ensures r.category == (if d.issueType != "" then d.issueType else "general")
    ensures r.createdAt.Some? && r.lastUpdated.Some? && r.expectedResolutionDate.Some?
    ensures d.createdAt.None? ==> r.createdAt == Some(now)
    ensures d.lastUpdated.None? ==> r.lastUpdated == Some(now)
    ensures d.expectedResolutionDate.None? ==> r.expectedResolutionDate == Some(now + FiveDaysMs)
    ensures d.createdAt.Some? ==> r.createdAt == d.createdAt
    ensures d.lastUpdated.Some? ==> r.lastUpdated == d.lastUpdated
    ensures d.expectedResolutionDate.Some? ==> r.expectedResolutionDate == d.expectedResolutionDate
    ensures d.resolutionNotes != "" ==> r.resolutionNotes == d.resolutionNotes
    ensures d.resolutionNotes == "" ==> r.resolutionNotes == ReceivedNote
    ensures r.petDetails.Some?
    ensures var p := r.petDetails.value; p.category != "" && p.name != "" && p.id != ""
    ensures d.petDetails.None? ==>
      r.petDetails == Some(PetDetails(OrElse(d.petCategory, NotSpecified), OrElse(d.petName, NotSpecified),
                                      OrElse(d.petId, NotSpecified)))
    ensures d.petDetails.Some? && d.petDetails.value.category != "" ==>
              r.petDetails.value.category == d.petDetails.value.category
    ensures d.petDetails.Some? && d.petDetails.value.category == "" ==>
              r.petDetails.value.category == OrElse(d.petCategory, NotSpecified)
    ensures d.petDetails.Some? && d.petDetails.value.name != "" ==> r.petDetails.value.name == d.petDetails.value.name
    ensures d.petDetails.Some? && d.petDetails.value.name == "" ==>
              r.petDetails.value.name == OrElse(d.petName, NotSpecified)
    ensures d.petDetails.Some? && d.petDetails.value.id != "" ==> r.petDetails.value.id == d.petDetails.value.id
    ensures d.petDetails.Some? && d.petDetails.value.id == "" ==> r.petDetails.value.id == OrElse(d.petId, NotSpecified)
  {
    d.(status := OrElse(d.status, "pending"),
       createdAt := Some(TimeOr(d.createdAt, now)),
       lastUpdated := Some(TimeOr(d.lastUpdated, now)),
       expectedResolutionDate := Some(TimeOr(d.expectedResolutionDate, now + FiveDaysMs)),
       assignedTo := OrElse(d.assignedTo, SupportAddress),
       resolutionNotes := OrElse(d.resolutionNotes, ReceivedNote),
       priority := OrElse(d.priority, "medium"),
       category := OrElse(d.issueType, "general"),
       petDetails := Some(PetDetails(DetailOr(d.petDetails, (p: PetDetails) => p.category, d.petCategory),
                                     DetailOr(d.petDetails, (p: PetDetails) => p.name, d.petName),
                                     DetailOr(d.petDetails, (p: PetDetails) => p.id, d.petId))))
  }

  /** Filling defaults twice is filling them once, at any two clock readings:
      every field the first pass fills is non-empty and kept by the second. */
  lemma NormaliseIdempotent(d: IssueData, now: int, later: int)
    ensures Normalise(Normalise(d, now), later) == Normalise(d, now)
  {
  }
}
