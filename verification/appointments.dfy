/** The appointment routes: the caller's appointments in date-then-time order,
    booking with the owner taken from the session, and an owner-scoped cancel
    that overwrites the status whatever it was. Dates are milliseconds since
    the epoch; times are the form's "HH:MM" text, compared as strings. */
module Appointments {
  import opened Common

  datatype AppointmentStatus = Pending | Confirmed | Completed | Cancelled

  function ParseAppointmentStatus(s: string): Option<AppointmentStatus> {
    if s == "pending" then Some(Pending) else if s == "confirmed" then Some(Confirmed)
    else if s == "completed" then Some(Completed) else if s == "cancelled" then Some(Cancelled) else None
  }

  const DefaultDoctor := "Dr. Available Vet"

  datatype Appointment = Appointment(
    id: string, userId: string, petId: Option<string>, petName: string, appointmentDate: int,
    appointmentTime: string, reason: string, isHomeVisit: bool, address: string, notes: string,
    status: AppointmentStatus, doctorName: string)

  /** A booking request; absent strings are "", the client's `userId` is
      carried but never used. The pet reference, the status and the doctor's
      name are `None` when absent: the schema's defaults apply only to an
      absent value, so a sent "" is kept as it is (and, as a pet reference,
      fails the ObjectId cast). */
  datatype AppointmentBody = AppointmentBody(
    userId: string, petId: Option<string>, petName: string, appointmentDate: Option<int>, appointmentTime: string,
    reason: string, isHomeVisit: Option<bool>, address: string, notes: string,
    status: Option<string>, doctorName: Option<string>)

  // ---------------------------------------------------------------------------
  // Ordering

  /** Binary string order, as the database sorts strings. */
  predicate TextLe(a: string, b: string)
    decreases |a|
  {
    |a| == 0 || (|b| > 0 && (a[0] < b[0] || (a[0] == b[0] && TextLe(a[1..], b[1..]))))
  }

  lemma {:induction false} TextLeTotal(a: string, b: string)
    ensures TextLe(a, b) || TextLe(b, a)
    decreases |a|
  {
    if |a| > 0 && |b| > 0 && a[0] == b[0] {
      TextLeTotal(a[1..], b[1..]);
    }
  }

  lemma {:induction false} TextLeTransitive(a: string, b: string, c: string)
    requires TextLe(a, b) && TextLe(b, c)
    ensures TextLe(a, c)
    decreases |a|
  {
    if |a| > 0 && a[0] == b[0] && b[0] == c[0] {
      TextLeTransitive(a[1..], b[1..], c[1..]);
    }
  }

  /** `sort({ appointmentDate: 1, appointmentTime: 1 })`. */
  predicate Le(x: Appointment, y: Appointment) {
    x.appointmentDate < y.appointmentDate
    || (x.appointmentDate == y.appointmentDate && TextLe(x.appointmentTime, y.appointmentTime))
  }

  lemma LeTotal(x: Appointment, y: Appointment)
    ensures Le(x, y) || Le(y, x)
  {
    TextLeTotal(x.appointmentTime, y.appointmentTime);
  }

  lemma LeTransitive(x: Appointment, y: Appointment, z: Appointment)
    requires Le(x, y) && Le(y, z)
    ensures Le(x, z)
  {
    if x.appointmentDate == y.appointmentDate == z.appointmentDate {
      TextLeTransitive(x.appointmentTime, y.appointmentTime, z.appointmentTime);
    }
  }

  predicate Sorted(s: seq<Appointment>) {
    forall i :: 0 <= i < |s| - 1 ==> Le(s[i], s[i + 1])
  }

  /** Adjacent order is order between any two positions. */
  lemma {:induction false} SortedPairwise(s: seq<Appointment>, i: nat, j: nat)
    requires Sorted(s) && i <= j < |s|
    ensures i == j || Le(s[i], s[j])
    decreases j - i
  {
    if i < j - 1 {
      SortedPairwise(s, i + 1, j);
      LeTransitive(s[i], s[i + 1], s[j]);
    }
  }

  /** Insertion into a sorted list, before the first element not below it. */
  function Insert(x: Appointment, s: seq<Appointment>): (r: seq<Appointment>)
    requires Sorted(s)
    ensures Sorted(r) && multiset(r) == multiset(s) + multiset{x}
    ensures |r| > 0 && (r[0] == x || (|s| > 0 && r[0] == s[0]))
    decreases |s|
  {
    if |s| == 0 then [x]
    else if Le(x, s[0]) then [x] + s
    else
      LeTotal(x, s[0]);
      var rest := Insert(x, s[1..]);
      assert s == [s[0]] + s[1..];
      [s[0]] + rest
  }

  function SortByDateTime(s: seq<Appointment>): (r: seq<Appointment>)
    ensures Sorted(r) && multiset(r) == multiset(s)
    decreases |s|
  {
    if |s| == 0 then []
    else
      assert s == [s[0]] + s[1..];
      Insert(s[0], SortByDateTime(s[1..]))
  }

  function OwnedBy(userId: string): Appointment -> bool {
    (a: Appointment) => a.userId == userId
  }

  /** `GET /api/appointments`: the caller's appointments, earliest first. */
  function ListAppointments(store: seq<Appointment>, userId: string): (r: seq<Appointment>)
    ensures Sorted(r)
    ensures forall a :: a in r ==> a in store && a.userId == userId
    ensures forall a :: a in store && a.userId == userId ==> a in r
    ensures multiset(r) == multiset(Filter(store, OwnedBy(userId)))
  {
    var mine := Filter(store, OwnedBy(userId));
    var r := SortByDateTime(mine);
    assert forall a :: a in r <==> a in mine by {
      forall a ensures a in r <==> a in mine {
        assert a in r <==> a in multiset(r);
        assert a in mine <==> a in multiset(mine);
      }
    }
    r
  }

  /** Every listed appointment is booked no earlier than the one listed before it. */
  lemma ListedInOrder(store: seq<Appointment>, userId: string, i: nat, j: nat)
    requires i <= j < |ListAppointments(store, userId)|
    ensures var r := ListAppointments(store, userId);
            r[i].appointmentDate <= r[j].appointmentDate
  {
    SortedPairwise(ListAppointments(store, userId), i, j);
  }

  // ---------------------------------------------------------------------------
  // POST /api/appointments

  /** The schema's cast: the five required strings and the date, an optional
      pet reference that must be an ObjectId when sent (so "" is refused), the
      status enum with "pending" as its default (a sent "" is outside the
      enum), and the defaults for the doctor and the home-visit flag. */
  function CastAppointment(id: string, userId: string, b: AppointmentBody): (r: Option<Appointment>)
    ensures r.Some? <==>
      && userId != "" && b.petName != "" && b.appointmentDate.Some? && b.appointmentTime != "" && b.reason != ""
      && (b.petId.Some? ==> IsObjectIdText(b.petId.value))
      && (b.status.Some? ==> ParseAppointmentStatus(b.status.value).Some?)
    ensures r.Some? ==>
      && r.value.id == id && r.value.userId == userId && r.value.petName == b.petName
      && r.value.appointmentDate == b.appointmentDate.value && r.value.appointmentTime == b.appointmentTime
      && r.value.petId == b.petId
      && (b.status.None? ==> r.value.status == Pending)
      && (b.status.Some? ==> ParseAppointmentStatus(b.status.value) == Some(r.value.status))
      && (b.doctorName.None? ==> r.value.doctorName == DefaultDoctor)
      && (b.doctorName.Some? ==> r.value.doctorName == b.doctorName.value)
      && (b.isHomeVisit.None? ==> !r.value.isHomeVisit)
      && (b.isHomeVisit.Some? ==> r.value.isHomeVisit == b.isHomeVisit.value)
      && r.value.reason == b.reason && r.value.address == b.address && r.value.notes == b.notes
  {
    var st := ParseAppointmentStatus(if b.status.Some? then b.status.value else "pending");
    if userId == "" || b.petName == "" || b.appointmentDate.None? || b.appointmentTime == "" || b.reason == ""
       || (b.petId.Some? && !IsObjectIdText(b.petId.value)) || st.None? then None
    else Some(Appointment(id, userId, b.petId, b.petName,
                          b.appointmentDate.value, b.appointmentTime, b.reason,
                          if b.isHomeVisit.Some? then b.isHomeVisit.value else false,
                          b.address, b.notes, st.value, if b.doctorName.Some? then b.doctorName.value else DefaultDoctor))
  }

  /** Booking: the owner is always the authenticated user; any failure to
      save is a 500. */
  function BookAppointment(store: seq<Appointment>, b: AppointmentBody, authId: string, newId: string)
    : (r: (Response<Appointment>, seq<Appointment>))
    ensures r.0.Failure? ==> r == (Failure(500, "Failed to book appointment"), store)
    ensures r.0.Success? <==> CastAppointment(newId, authId, b).Some?
    ensures r.0.Success? ==> r.0.status == 201 && r.0.body.userId == authId && r.1 == store + [r.0.body]
  {
    match CastAppointment(newId, authId, b)
    case None => (Failure(500, "Failed to book appointment"), store)
    case Some(a) => (Success(201, a), store + [a])
  }

  /** A pet reference sent as "" fails the ObjectId cast: the booking is a
      500 and nothing is stored. */
  lemma EmptyPetIdRefused(store: seq<Appointment>, b: AppointmentBody, authId: string, newId: string)
    requires b.petId == Some("")
    ensures BookAppointment(store, b, authId, newId) == (Failure(500, "Failed to book appointment"), store)
  {
    assert !IsObjectIdText("");
  }

  /** The client's `userId` never matters. */
  lemma ClientUserIdIgnored(store: seq<Appointment>, b: AppointmentBody, forged: string, authId: string, newId: string)
    ensures BookAppointment(store, b.(userId := forged), authId, newId) == BookAppointment(store, b, authId, newId)
  {
  }

  // ---------------------------------------------------------------------------
  // PATCH /api/appointments/:id/cancel

  function IdAndOwner(id: string, userId: string): Appointment -> bool {
    (a: Appointment) => a.id == id && a.userId == userId
  }

  const NotFoundMessage := "Appointment not found or you don't have permission"

  /** Cancel: the appointment must match both id and owner (a malformed id
      fails the cast, 500); its status becomes cancelled, whatever it was. */
  function CancelAppointment(store: seq<Appointment>, id: string, authId: string)
    : (r: (Response<Appointment>, seq<Appointment>))
    ensures r.0.Failure? ==> r.1 == store
    ensures !IsObjectIdText(id) ==> r.0 == Failure(500, "Failed to cancel appointment")
    ensures IsObjectIdText(id) && (forall i :: 0 <= i < |store| ==> !IdAndOwner(id, authId)(store[i])) ==>
              r.0 == Failure(404, NotFoundMessage)
    ensures r.0.Success? <==> IsObjectIdText(id) && exists i :: 0 <= i < |store| && IdAndOwner(id, authId)(store[i])
    ensures r.0.Success? ==>
      && r.0.status == 200 && r.0.body.status == Cancelled && |r.1| == |store|
      && exists i :: 0 <= i < |store| && IdAndOwner(id, authId)(store[i])
                     && (forall j :: 0 <= j < i ==> !IdAndOwner(id, authId)(store[j]))
                     && r.0.body == store[i].(status := Cancelled) && r.1 == store[i := r.0.body]
  {
    if !IsObjectIdText(id) then (Failure(500, "Failed to cancel appointment"), store)
    else match FindIndex(store, IdAndOwner(id, authId))
      case None => (Failure(404, NotFoundMessage), store)
      case Some(i) =>
        var a := store[i].(status := Cancelled);
        (Success(200, a), store[i := a])
  }

  /** No guard: cancelling again succeeds and leaves the store as it was after
      the first cancel, even for an appointment already completed. */
  lemma {:induction false} CancelIdempotent(store: seq<Appointment>, id: string, authId: string)
    requires CancelAppointment(store, id, authId).0.Success?
    ensures var once := CancelAppointment(store, id, authId);
            CancelAppointment(once.1, id, authId) == once
  {
    var p := IdAndOwner(id, authId);
    var i := FindIndex(store, p).value;
    var once := store[i := store[i].(status := Cancelled)];
    assert CancelAppointment(store, id, authId).1 == once;
    assert forall j :: 0 <= j < i ==> once[j] == store[j];
    assert p(once[i]);
    assert FindIndex(once, p) == Some(i);
    assert once[i].(status := Cancelled) == once[i];
    assert once[i := once[i]] == once;
  }
}
