/** The appointment booking form: its change handler (checkboxes give their
    `checked` flag, other inputs their text), the pet picker, and the
    validator that collects one message per missing field. */
module AppointmentsPage {
  import opened Common
  import opened Forms

  /** A pet of the signed-in user, as the pet list returns it. */
  datatype UserPet = UserPet(id: string, name: string)

  /** `handleChange`: a checkbox stores its flag, any other input its value;
      only that field's error is cleared. */
  function HandleChange(form: Form, errors: FormErrors, name: string, inputType: string, value: string, checked: bool)
    : (r: (Form, FormErrors))
    ensures inputType == "checkbox" ==> name in r.0 && r.0[name] == Flag(checked)
    ensures inputType != "checkbox" ==> name in r.0 && r.0[name] == Text(value)
    ensures r.0.Keys == form.Keys + {name}
    ensures forall k :: k in form && k != name ==> r.0[k] == form[k]
    ensures r.1.Keys == errors.Keys && !HasError(r.1, name)
    ensures forall k :: k in errors && k != name ==> r.1[k] == errors[k]
  {
    SetField(form, errors, name, if inputType == "checkbox" then Flag(checked) else Text(value))
  }

  function HasPetId(id: string): UserPet -> bool {
    (p: UserPet) => p.id == id
  }

  /** `handlePetSelect`: the first listed pet with the chosen id sets both the
      pet id and the pet name; an id not in the list changes nothing. */
  function HandlePetSelect(form: Form, pets: seq<UserPet>, value: string): (r: Form)
    ensures (forall i :: 0 <= i < |pets| ==> pets[i].id != value) ==> r == form
    ensures (exists i :: 0 <= i < |pets| && pets[i].id == value) ==>
      exists i :: 0 <= i < |pets| && pets[i].id == value && (forall j :: 0 <= j < i ==> pets[j].id != value)
                  && r == form["petId" := Text(value)]["petName" := Text(pets[i].name)]
  {
    match FindIndex(pets, HasPetId(value))
    case None => form
    case Some(i) => form["petId" := Text(pets[i].id)]["petName" := Text(pets[i].name)]
  }

  /** The conditions under which the form has no errors. */
  predicate Complete(form: Form) {
    && Filled(form, "petId") && Filled(form, "petName") && Filled(form, "appointmentDate")
    && Filled(form, "appointmentTime") && Filled(form, "reason")
    && (Filled(form, "isHomeVisit") ==> Filled(form, "address"))
  }

  /** The fields `validateForm` checks on every form, with their messages, in source order. */
  const VisitFields := [("petId", "Please select a pet"), ("petName", "Pet name is required"),
                        ("appointmentDate", "Date is required"), ("appointmentTime", "Time is required"),
                        ("reason", "Reason is required")]

  /** The listed fields are distinct, and the address and the notes are not among them. */
  lemma UnlistedNames()
    ensures DistinctNames(VisitFields)
    ensures "address" !in Names(VisitFields) && "notes" !in Names(VisitFields)
  {
  }

  /** `validateForm`: one message per empty field, every one of them
      recorded; the address counts only for a home visit. */
  function ValidateForm(form: Form): (r: FormErrors)
    ensures r.Keys <= Names(VisitFields) + {"address"}
    ensures forall k :: 0 <= k < |VisitFields| ==>
              && (VisitFields[k].0 in r <==> !Filled(form, VisitFields[k].0))
              && (VisitFields[k].0 in r ==> r[VisitFields[k].0] == Some(VisitFields[k].1))
    ensures "address" in r <==> Filled(form, "isHomeVisit") && !Filled(form, "address")
    ensures "address" in r ==> r["address"] == Some("Address is required for home visits")
  {
    UnlistedNames();
    var e := RequireAll(form, VisitFields);
    if Filled(form, "isHomeVisit") then
      RequireBeyond(form, VisitFields, "address", "Address is required for home visits");
      RequireField(form, e, "address", "Address is required for home visits")
    else e
  }

  /** The form is valid exactly when it is complete; the notes never matter,
      and neither does the address of a visit at the clinic. */
  lemma ValidIffComplete(form: Form, notes: FormValue, address: FormValue)
    ensures |ValidateForm(form)| == 0 <==> Complete(form)
    ensures ValidateForm(form["notes" := notes]) == ValidateForm(form)
    ensures !Filled(form, "isHomeVisit") ==> ValidateForm(form["address" := address]) == ValidateForm(form)
  {
    NoErrorsIffComplete(form);
    NotesIgnored(form, notes);
    if !Filled(form, "isHomeVisit") {
      ClinicAddressIgnored(form, address);
    }
  }

  lemma NoErrorsIffComplete(form: Form)
    ensures |ValidateForm(form)| == 0 <==> Complete(form)
  {
    var r := ValidateForm(form);
    if Complete(form) {
      assert forall n :: n in Names(VisitFields) ==> n !in r;
      assert r.Keys == {};
    } else {
      var k := if !Filled(form, "petId") then 0 else if !Filled(form, "petName") then 1
               else if !Filled(form, "appointmentDate") then 2 else if !Filled(form, "appointmentTime") then 3
               else if !Filled(form, "reason") then 4 else 5;
      if k < 5 {
        assert VisitFields[k].0 in r;
      } else {
        assert "address" in r;
      }
    }
  }

  lemma NotesIgnored(form: Form, notes: FormValue)
    ensures ValidateForm(form["notes" := notes]) == ValidateForm(form)
  {
    var f2 := form["notes" := notes];
    UnlistedNames();
    UnlistedFieldIgnored(form, VisitFields, "notes", notes);
    var e := RequireAll(form, VisitFields);
    assert RequireAll(f2, VisitFields) == e;
    if Filled(form, "isHomeVisit") {
      assert Filled(f2, "isHomeVisit") && Filled(f2, "address") == Filled(form, "address");
      assert ValidateForm(f2) == RequireField(f2, e, "address", "Address is required for home visits")
                              == RequireField(form, e, "address", "Address is required for home visits");
    } else {
      assert !Filled(f2, "isHomeVisit");
      assert ValidateForm(f2) == e;
    }
  }

  lemma ClinicAddressIgnored(form: Form, address: FormValue)
    requires !Filled(form, "isHomeVisit")
    ensures ValidateForm(form["address" := address]) == ValidateForm(form)
  {
    var f3 := form["address" := address];
    UnlistedNames();
    UnlistedFieldIgnored(form, VisitFields, "address", address);
    assert Filled(f3, "isHomeVisit") == Filled(form, "isHomeVisit");
  }
}
