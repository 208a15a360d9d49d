/** Pet insurance policies on the server: the policy schema's enums and
    requireds, creation with its defaults, the cancel guard, and claim
    admission with the upload's extension whitelist. */
module Insurance {
  import opened Common
  import opened Calendar

  datatype PlanType = Basic | Standard | Premium

  datatype PolicyStatus = Active | Expired | Cancelled

  datatype ClaimStatus = ClaimPending | Approved | Rejected

  datatype DocType = Pdf | Jpg | Jpeg | Png

  datatype Claim = Claim(
    date: Date, amount: real, reason: string, description: string,
    documentPath: Option<string>, documentType: Option<DocType>,
    status: ClaimStatus, remarks: string)

  datatype Policy = Policy(
    id: string, userId: string, petId: string, petName: string, planType: PlanType,
    coverageAmount: real, monthlyPremium: real, startDate: Date, endDate: Date,
    status: PolicyStatus, benefits: seq<string>, claims: seq<Claim>)

  function ParsePlanType(s: string): Option<PlanType> {
    if s == "basic" then Some(Basic) else if s == "standard" then Some(Standard)
    else if s == "premium" then Some(Premium) else None
  }

  function ParsePolicyStatus(s: string): Option<PolicyStatus> {
    if s == "active" then Some(Active) else if s == "expired" then Some(Expired)
    else if s == "cancelled" then Some(Cancelled) else None
  }

  function StatusText(s: PolicyStatus): (r: string)
    ensures ParsePolicyStatus(r) == Some(s)
  {
    match s
    case Active => "active"
    case Expired => "expired"
    case Cancelled => "cancelled"
  }

  function ParseDocType(s: string): Option<DocType> {
    if s == "pdf" then Some(Pdf) else if s == "jpg" then Some(Jpg)
    else if s == "jpeg" then Some(Jpeg) else if s == "png" then Some(Png) else None
  }

  /** The schema's enumerations accept exactly their listed spellings. */
  lemma InsuranceEnumSpellings(s: string)
    ensures ParsePlanType(s).Some? <==> s in ["basic", "standard", "premium"]
    ensures ParsePolicyStatus(s).Some? <==> s in ["active", "expired", "cancelled"]
    ensures ParseDocType(s).Some? <==> s in ["pdf", "jpg", "jpeg", "png"]
  {
  }

  // ---------------------------------------------------------------------------
  // POST /api/insurance

  /** The fields of the create body the schema keeps (the pet's type, breed,
      age, gender, history and the plan name are not schema paths and are
      dropped). Dates are `None` when absent. */
  datatype PolicyBody = PolicyBody(
    petId: string, petName: string, planType: string,
    coverageAmount: Option<real>, monthlyPremium: Option<real>, benefits: seq<string>,
    startDate: Option<Date>, endDate: Option<Date>, status: string)

  /** The schema's verdict on the record built by the route. */
  function CastPolicy(id: string, userId: string, b: PolicyBody, start: Date, end: Date, status: string): (r: Option<Policy>)
    ensures r.Some? <==> userId != "" && IsObjectIdText(b.petId) && b.petName != ""
                         && ParsePlanType(b.planType).Some? && b.coverageAmount.Some? && b.monthlyPremium.Some?
                         && ParsePolicyStatus(status).Some?
    ensures r.Some? ==> r.value.id == id && r.value.userId == userId && r.value.petId == b.petId
                        && r.value.petName == b.petName && Some(r.value.planType) == ParsePlanType(b.planType)
                        && r.value.coverageAmount == b.coverageAmount.value
                        && r.value.monthlyPremium == b.monthlyPremium.value && r.value.benefits == b.benefits
                        && r.value.startDate == start && r.value.endDate == end
                        && Some(r.value.status) == ParsePolicyStatus(status) && r.value.claims == []
  {
    var plan := ParsePlanType(b.planType);
    var st := ParsePolicyStatus(status);
    if userId == "" || !IsObjectIdText(b.petId) || b.petName == "" || plan.None?
       || b.coverageAmount.None? || b.monthlyPremium.None? || st.None? then None
    else Some(Policy(id, userId, b.petId, b.petName, plan.value, b.coverageAmount.value,
                     b.monthlyPremium.value, start, end, st.value, b.benefits, []))
  }

  /** Create: pet id, pet name and plan type are required; the owner is the
      authenticated user; the start defaults to now, the end to one calendar
      year after now, the status to "active". A schema failure is a 500. */
  function CreatePolicy(store: seq<Policy>, b: PolicyBody, authId: string, now: Date, newId: string)
    : (r: (Response<Policy>, seq<Policy>))
    ensures b.petId == "" || b.petName == "" || b.planType == "" <==>
              r.0 == Failure(400, "Missing required fields: petId, petName, or planType")
    ensures r.0.Failure? ==> r.1 == store && (r.0.status == 400 || r.0.status == 500)
    ensures var start := if b.startDate.Some? then b.startDate.value else now;
            var end := if b.endDate.Some? then b.endDate.value else AddOneYear(now);
            var cast := CastPolicy(newId, authId, b, start, end, OrElse(b.status, "active"));
            && (r.0.Success? <==> !(b.petId == "" || b.petName == "" || b.planType == "") && cast.Some?)
            && (r.0.Success? ==> Some(r.0.body) == cast)
            && (!(b.petId == "" || b.petName == "" || b.planType == "") && cast.None? ==>
                  r.0 == Failure(500, "Failed to create insurance policy"))
    ensures r.0.Success? ==>
      && r.0.status == 201 && r.1 == store + [r.0.body]
      && var p := r.0.body;
         p.id == newId && p.userId == authId && p.claims == []
         && p.startDate == (if b.startDate.Some? then b.startDate.value else now)
         && p.endDate == (if b.endDate.Some? then b.endDate.value else AddOneYear(now))
         && (b.status == "" ==> p.status == Active)
         && (b.startDate.None? && b.endDate.None? ==> Before(p.startDate, p.endDate))
  {
    if b.petId == "" || b.petName == "" || b.planType == "" then
      (Failure(400, "Missing required fields: petId, petName, or planType"), store)
    else
      var start := if b.startDate.Some? then b.startDate.value else now;
      var end := if b.endDate.Some? then b.endDate.value else AddOneYear(now);
      match CastPolicy(newId, authId, b, start, end, OrElse(b.status, "active"))
      case None => (Failure(500, "Failed to create insurance policy"), store)
      case Some(p) => (Success(201, p), store + [p])
  }

  // ---------------------------------------------------------------------------
  // PATCH /api/insurance/:id/cancel

  function OwnedBy(id: string, authId: string): Policy -> bool {
    (p: Policy) => p.id == id && p.userId == authId
  }

  /** `i` is the policy `findOne` returns on cancel: the first of the caller's with that id. */
  predicate FirstOwned(store: seq<Policy>, id: string, authId: string, i: int) {
    0 <= i < |store| && OwnedBy(id, authId)(store[i])
    && forall j :: 0 <= j < i ==> !OwnedBy(id, authId)(store[j])
  }

  /** Cancel: the policy must match both id and owner (a malformed id fails
      the cast, 500); only an active policy becomes cancelled. */
  function CancelPolicy(store: seq<Policy>, id: string, authId: string): (r: (Response<Policy>, seq<Policy>))
    ensures r.0.Failure? ==> r.1 == store
    ensures r.0.Success? <==>
      IsObjectIdText(id) && exists i :: 0 <= i < |store| && OwnedBy(id, authId)(store[i]) && store[i].status == Active
                                        && forall j :: 0 <= j < i ==> !OwnedBy(id, authId)(store[j])
    ensures r.0.Success? ==>
      && r.0.status == 200 && r.0.body.status == Cancelled && |r.1| == |store|
      && exists i :: 0 <= i < |store| && r.1 == store[i := r.0.body] && r.0.body == store[i].(status := Cancelled)
    ensures IsObjectIdText(id) && !(exists i :: 0 <= i < |store| && OwnedBy(id, authId)(store[i])) ==>
              r.0 == Failure(404, "Insurance policy not found")
    ensures !IsObjectIdText(id) ==> r.0 == Failure(500, "Failed to cancel insurance policy")
    ensures forall i :: IsObjectIdText(id) && FirstOwned(store, id, authId, i) && store[i].status != Active ==>
              r.0 == Failure(400, "Cannot cancel a policy that is already " + StatusText(store[i].status))
  {
    if !IsObjectIdText(id) then (Failure(500, "Failed to cancel insurance policy"), store)
    else match FindIndex(store, OwnedBy(id, authId))
      case None => (Failure(404, "Insurance policy not found"), store)
      case Some(i) =>
        assert FirstOwned(store, id, authId, i);
        assert forall j :: FirstOwned(store, id, authId, j) ==> j == i;
        if store[i].status != Active then
          (Failure(400, "Cannot cancel a policy that is already " + StatusText(store[i].status)), store)
        else
          var p := store[i].(status := Cancelled);
          (Success(200, p), store[i := p])
  }

  /** Cancelling twice: the second attempt is refused and changes nothing. */
  lemma CancelTwice(store: seq<Policy>, id: string, authId: string)
    requires CancelPolicy(store, id, authId).0.Success?
    ensures var once := CancelPolicy(store, id, authId).1;
            CancelPolicy(once, id, authId) == (Failure(400, "Cannot cancel a policy that is already cancelled"), once)
  {
    var i := FindIndex(store, OwnedBy(id, authId)).value;
    var once := CancelPolicy(store, id, authId).1;
    assert once == store[i := store[i].(status := Cancelled)];
    assert forall j :: 0 <= j < i ==> once[j] == store[j];
    CancelledRefused(once, id, authId, i);
  }

  /** A cancelled policy found first is refused with its status named. */
  lemma CancelledRefused(store: seq<Policy>, id: string, authId: string, i: nat)
    requires IsObjectIdText(id) && FirstOwned(store, id, authId, i) && store[i].status == Cancelled
    ensures CancelPolicy(store, id, authId) == (Failure(400, "Cannot cancel a policy that is already cancelled"), store)
  {
    assert StatusText(store[i].status) == "cancelled";
    assert "Cannot cancel a policy that is already " + StatusText(store[i].status)
           == "Cannot cancel a policy that is already cancelled";
  }

  // ---------------------------------------------------------------------------
  // POST /api/insurance/:id/claim

  /** An uploaded file: its original name, where it was stored, its size. */
  datatype Upload = Upload(originalName: string, path: string, size: nat)

  const MaxUploadBytes: nat := 5 * 1024 * 1024

  function LastDot(s: string): (r: Option<nat>)
    ensures r.Some? ==> r.value < |s| && s[r.value] == '.' && forall j :: r.value < j < |s| ==> s[j] != '.'
    ensures r.None? ==> forall j :: 0 <= j < |s| ==> s[j] != '.'
  {
    if |s| == 0 then None
    else if s[|s| - 1] == '.' then Some(|s| - 1)
    else LastDot(s[..|s| - 1])
  }

  /** `path.extname` of a base name: from the last dot to the end, or "" when
      there is no dot, the only dot leads the name, or the name is "..". */
  function Extname(name: string): (r: string)
    ensures r == "" || (r[0] == '.' && EndsWith(name, r) && forall j :: 1 <= j < |r| ==> r[j] != '.')
    ensures (forall j :: 0 <= j < |name| ==> name[j] != '.') ==> r == ""
    ensures |name| > 0 && name[0] == '.' && (forall j :: 0 < j < |name| ==> name[j] != '.') ==> r == ""
    ensures name == ".." ==> r == ""
    ensures forall k :: 0 < k < |name| && name[k] == '.' && (forall j :: k < j < |name| ==> name[j] != '.') && name != ".." ==>
              r == name[k..]
  {
    match LastDot(name)
    case None => ""
    case Some(k) => if k == 0 || name == ".." then "" else name[k..]
  }

  const AllowedExtensions: seq<string> := [".pdf", ".jpg", ".jpeg", ".png"]

  /** multer's `fileFilter`: the lower-cased extension must be listed. */
  predicate FileFilter(name: string) {
    Lower(Extname(name)) in AllowedExtensions
  }

  /** The claim's document type as the route computes it: the extension
      without its dot, in the case the file name had. */
  function DocumentTypeAsWritten(name: string): string {
    var ext := Extname(name);
    if |ext| == 0 then "" else ext[1..]
  }

  /** An upload named "scan.PDF" passes the filter, but its document type
      "PDF" is outside the schema's enumeration, so saving the claim fails. */
  lemma UpperCaseExtensionRejectedOnSave()
    ensures FileFilter("scan.PDF")
    ensures DocumentTypeAsWritten("scan.PDF") == "PDF" && ParseDocType(DocumentTypeAsWritten("scan.PDF")).None?
  {
    assert LastDot("scan.PDF") == Some(4) by {
      assert "scan.PDF"[7] != '.' && "scan.PDF"[4] == '.';
      assert "scan.PDF"[..7] == "scan.PD" && "scan.PD"[..6] == "scan.P" && "scan.P"[..5] == "scan.";
    }
    assert Extname("scan.PDF") == ".PDF";
    assert Lower(".PDF") == ".pdf";
  }

  /** The document type with the extension lower-cased, as the filter compares it. */
  function DocumentType(name: string): (r: string)
    ensures FileFilter(name) ==> ParseDocType(r).Some?
  {
    var ext := Lower(Extname(name));
    if |ext| == 0 then "" else ext[1..]
  }

  /** Every upload the filter admits is filed under a listed document type. */
  lemma AcceptedUploadHasListedType(name: string)
    requires FileFilter(name)
    ensures ParseDocType(DocumentType(name)).Some?
    ensures Lower(Extname(name)) == "." + DocumentType(name)
  {
  }

  function ActiveOwnedBy(id: string, authId: string): Policy -> bool {
    (p: Policy) => p.id == id && p.userId == authId && p.status == Active
  }

  /** A claim form: `amount` is the parsed amount, `None` when the field is empty. */
  datatype ClaimForm = ClaimForm(amount: Option<real>, reason: string, description: string)

  /** What a claim request ends in: a reply, or the whole server process
      exiting, which answers no request at all. */
  datatype ClaimOutcome = Replied(response: Response<Claim>) | ProcessExit

  const InvalidFileType := "Invalid file type. Only PDF, JPG, and PNG files are allowed."

  /** `i` is the policy `findOne` returns: the first active policy of the caller with that id. */
  predicate FirstActiveOwned(store: seq<Policy>, id: string, authId: string, i: int) {
    0 <= i < |store| && ActiveOwnedBy(id, authId)(store[i])
    && forall j :: 0 <= j < i ==> !ActiveOwnedBy(id, authId)(store[j])
  }

  /** The upload, if any, passes the filter and the size limit. */
  predicate UploadOk(upload: Option<Upload>) {
    upload.Some? ==> FileFilter(upload.value.originalName) && upload.value.size <= MaxUploadBytes
  }

  /** The checks made after the policy lookup pass against policy `i`. */
  predicate ClaimChecksPass(store: seq<Policy>, upload: Option<Upload>, form: ClaimForm, i: int) {
    0 <= i < |store| && UploadOk(upload)
    && form.amount.Some? && form.reason != "" && form.amount.value <= store[i].coverageAmount
  }

  /** Every check of the route passes against policy `i`. */
  predicate ClaimAdmitted(store: seq<Policy>, id: string, authId: string, upload: Option<Upload>, form: ClaimForm, i: int) {
    FirstActiveOwned(store, id, authId, i) && ClaimChecksPass(store, upload, form, i)
  }

  /** The filed claim, before its document type is known to be listed. */
  function NewClaim(upload: Option<Upload>, form: ClaimForm, now: Date, docType: string -> string): Claim
    requires form.amount.Some?
  {
    Claim(now, form.amount.value, form.reason, form.description,
          if upload.Some? then Some(upload.value.path) else None,
          if upload.Some? then ParseDocType(docType(upload.value.originalName)) else None, ClaimPending, "")
  }

  /** The route once policy `i` is found: multer's filter and size limit
      (400 with multer's message), the required amount and reason, the
      coverage limit, then the save. */
  function ClaimOnPolicy(store: seq<Policy>, i: nat, upload: Option<Upload>, form: ClaimForm, now: Date,
                         docType: string -> string): (r: (ClaimOutcome, seq<Policy>))
    requires i < |store|
    ensures upload.Some? && !FileFilter(upload.value.originalName) ==> r.0 == Replied(Failure(400, InvalidFileType))
    ensures upload.Some? && FileFilter(upload.value.originalName) && upload.value.size > MaxUploadBytes ==>
              r.0 == Replied(Failure(400, "File too large"))
    ensures UploadOk(upload) && (form.amount.None? || form.reason == "") ==>
              r.0 == Replied(Failure(400, "Missing required fields: amount or reason"))
    ensures UploadOk(upload) && form.amount.Some? && form.reason != "" && form.amount.value > store[i].coverageAmount ==>
              r.0 == Replied(Failure(400, "Claim amount exceeds coverage limit"))
    ensures r.0 == ProcessExit <==>
              ClaimChecksPass(store, upload, form, i) && upload.Some? && ParseDocType(docType(upload.value.originalName)).None?
    ensures r.0.Replied? && r.0.response.Success? <==>
              ClaimChecksPass(store, upload, form, i) && (upload.Some? ==> ParseDocType(docType(upload.value.originalName)).Some?)
    ensures !(r.0.Replied? && r.0.response.Success?) ==> r.1 == store
    ensures r.0.Replied? && r.0.response.Success? ==>
              r == (Replied(Success(201, NewClaim(upload, form, now, docType))),
                    store[i := store[i].(claims := store[i].claims + [NewClaim(upload, form, now, docType)])])
  {
    if upload.Some? && !FileFilter(upload.value.originalName) then (Replied(Failure(400, InvalidFileType)), store)
    else if upload.Some? && upload.value.size > MaxUploadBytes then (Replied(Failure(400, "File too large")), store)
    else if form.amount.None? || form.reason == "" then
      (Replied(Failure(400, "Missing required fields: amount or reason")), store)
    else if form.amount.value > store[i].coverageAmount then
      (Replied(Failure(400, "Claim amount exceeds coverage limit")), store)
    else
      var c := NewClaim(upload, form, now, docType);
      if upload.Some? && c.documentType.None? then (ProcessExit, store)
      else (Replied(Success(201, c)), store[i := store[i].(claims := store[i].claims + [c])])
  }

  /** The claim route, with the document type computed by `docType` from the
      upload's original name: an active policy of the caller (else 404), an
      upload the filter and the size limit admit (multer's error, 400), an
      amount and a reason, and an amount no greater than the coverage. The
      claim is appended as pending and the policy saved. Saving a document
      type outside the schema's enumeration throws inside multer's callback,
      whose rejected promise nobody awaits; the process's
      `unhandledRejection` handler then exits. */
  function ClaimRoute(store: seq<Policy>, id: string, authId: string, upload: Option<Upload>, form: ClaimForm, now: Date,
                      docType: string -> string): (r: (ClaimOutcome, seq<Policy>))
    ensures !IsObjectIdText(id) ==> r.0 == Replied(Failure(500, "Failed to submit claim"))
    ensures IsObjectIdText(id) && !(exists i :: 0 <= i < |store| && ActiveOwnedBy(id, authId)(store[i])) ==>
              r.0 == Replied(Failure(404, "Active insurance policy not found"))
    ensures IsObjectIdText(id) && (exists i :: FirstActiveOwned(store, id, authId, i))
            && upload.Some? && !FileFilter(upload.value.originalName) ==>
              r.0 == Replied(Failure(400, InvalidFileType))
    ensures IsObjectIdText(id) && (exists i :: FirstActiveOwned(store, id, authId, i))
            && upload.Some? && FileFilter(upload.value.originalName) && upload.value.size > MaxUploadBytes ==>
              r.0 == Replied(Failure(400, "File too large"))
    ensures IsObjectIdText(id) && (exists i :: FirstActiveOwned(store, id, authId, i)) && UploadOk(upload)
            && (form.amount.None? || form.reason == "") ==>
              r.0 == Replied(Failure(400, "Missing required fields: amount or reason"))
    ensures IsObjectIdText(id) && UploadOk(upload) && form.amount.Some? && form.reason != ""
            && (exists i :: FirstActiveOwned(store, id, authId, i) && form.amount.value > store[i].coverageAmount) ==>
              r.0 == Replied(Failure(400, "Claim amount exceeds coverage limit"))
    ensures r.0 == ProcessExit <==>
              IsObjectIdText(id) && (exists i :: ClaimAdmitted(store, id, authId, upload, form, i))
              && upload.Some? && ParseDocType(docType(upload.value.originalName)).None?
    ensures r.0.Replied? && r.0.response.Success? <==>
              IsObjectIdText(id) && (exists i :: ClaimAdmitted(store, id, authId, upload, form, i))
              && (upload.Some? ==> ParseDocType(docType(upload.value.originalName)).Some?)
    ensures !(r.0.Replied? && r.0.response.Success?) ==> r.1 == store
    ensures r.0.Replied? && r.0.response.Success? ==>
      && r.0.response.status == 201 && |r.1| == |store|
      && exists i :: ClaimAdmitted(store, id, authId, upload, form, i)
                     && r.1 == store[i := store[i].(claims := store[i].claims + [r.0.response.body])]
    ensures r.0.Replied? && r.0.response.Success? ==> var c := r.0.response.body;
      && c.status == ClaimPending && c.date == now && c.amount == form.amount.value && c.reason == form.reason
      && c.description == form.description && c.remarks == ""
      && (upload.Some? <==> c.documentType.Some?)
      && (upload.None? ==> c.documentPath.None?)
      && (upload.Some? ==> c.documentPath == Some(upload.value.path)
                           && c.documentType == ParseDocType(docType(upload.value.originalName)))
  {
    if !IsObjectIdText(id) then (Replied(Failure(500, "Failed to submit claim")), store)
    else match FindIndex(store, ActiveOwnedBy(id, authId))
      case None => (Replied(Failure(404, "Active insurance policy not found")), store)
      case Some(i) =>
        assert FirstActiveOwned(store, id, authId, i);
        assert forall j :: FirstActiveOwned(store, id, authId, j) ==> j == i;
        var r := ClaimOnPolicy(store, i, upload, form, now, docType);
        assert ClaimChecksPass(store, upload, form, i) ==> ClaimAdmitted(store, id, authId, upload, form, i);
        r
  }

  /** As written, a claim that passes every check with an upload named
      "scan.PDF" takes the server process down instead of being answered. */
  lemma UpperCaseClaimExits(store: seq<Policy>, id: string, authId: string, i: int, form: ClaimForm, now: Date,
                            path: string, size: nat)
    requires IsObjectIdText(id) && size <= MaxUploadBytes
    requires ClaimAdmitted(store, id, authId, Some(Upload("scan.PDF", path, size)), form, i)
    ensures ClaimRoute(store, id, authId, Some(Upload("scan.PDF", path, size)), form, now, DocumentTypeAsWritten).0 == ProcessExit
  {
    UpperCaseExtensionRejectedOnSave();
  }

  /** With the extension lower-cased, no claim request ends the process. */
  lemma CorrectedClaimNeverExits(store: seq<Policy>, id: string, authId: string, upload: Option<Upload>, form: ClaimForm, now: Date)
    ensures ClaimRoute(store, id, authId, upload, form, now, DocumentType).0.Replied?
  {
    if IsObjectIdText(id) && (exists i :: ClaimAdmitted(store, id, authId, upload, form, i)) && upload.Some? {
      AcceptedUploadHasListedType(upload.value.originalName);
    }
  }

  /** With the correction, a claim that passes every check is filed: the
      policy gets a pending claim with the upload's path and listed type. */
  lemma ValidClaimAccepted(store: seq<Policy>, id: string, authId: string, i: int, up: Upload, form: ClaimForm, now: Date)
    requires IsObjectIdText(id) && ClaimAdmitted(store, id, authId, Some(up), form, i)
    ensures var c := Claim(now, form.amount.value, form.reason, form.description, Some(up.path),
                           ParseDocType(DocumentType(up.originalName)), ClaimPending, "");
            c.documentType.Some? &&
            ClaimRoute(store, id, authId, Some(up), form, now, DocumentType)
              == (Replied(Success(201, c)), store[i := store[i].(claims := store[i].claims + [c])])
  {
    AcceptedUploadHasListedType(up.originalName);
    assert FindIndex(store, ActiveOwnedBy(id, authId)) == Some(i);
  }

  /** A claim without a document, for exactly the coverage amount, is admitted. */
  lemma ClaimAtCoverageAccepted(store: seq<Policy>, id: string, authId: string, i: nat, reason: string, description: string, now: Date)
    requires IsObjectIdText(id) && reason != ""
    requires i < |store| && ActiveOwnedBy(id, authId)(store[i])
    requires forall j :: 0 <= j < i ==> !ActiveOwnedBy(id, authId)(store[j])
    ensures var r := ClaimRoute(store, id, authId, None, ClaimForm(Some(store[i].coverageAmount), reason, description), now,
                                DocumentTypeAsWritten);
            r.0.Replied? && r.0.response.Success?
  {
    assert FindIndex(store, ActiveOwnedBy(id, authId)) == Some(i);
  }
}
