/** The "my insurance" page: the plan table, the pet form's validation and
    change handler, the policy request it sends (with the plan type derived
    from the plan id), and the update that attaches a plan to a cart line. */
module InsurancePage {
  import opened Common
  import opened Calendar
  import opened Forms
  import opened Cart
  import opened Insurance

  datatype Plan = Plan(id: string, name: string, price: real, coverage: real, benefits: seq<string>)

  const Plans: seq<Plan> := [
    Plan("basic_plan", "Basic Plan", 499.0, 10000.0, ["Accident coverage", "Emergency care", "Basic medications"]),
    Plan("standard_plan", "Standard Plan", 999.0, 25000.0,
         ["All basic plan benefits", "Surgeries", "Hospitalization", "Medications"]),
    Plan("premium_plan", "Premium Plan", 1999.0, 50000.0,
         ["All standard plan benefits", "Preventive care", "Dental care", "Specialist consultations"])
  ]

  /** `s.split(c)[0]`: everything before the first `c`, or all of `s`. */
  function BeforeFirst(s: string, c: char): (r: string)
    ensures r <= s
    ensures forall i :: 0 <= i < |r| ==> r[i] != c
    ensures |r| < |s| ==> s[|r|] == c
  {
    if |s| == 0 || s[0] == c then "" else [s[0]] + BeforeFirst(s[1..], c)
  }

  /** The plan type sent for a plan: its id up to the first underscore. */
  function PlanTypeOf(p: Plan): string {
    BeforeFirst(p.id, '_')
  }

  /** A prefix free of `c`, followed by `c`, is what `split(c)[0]` returns. */
  lemma {:induction false} BeforeFirstConcat(a: string, b: string, c: char)
    requires forall i :: 0 <= i < |a| ==> a[i] != c
    requires |b| > 0 && b[0] == c
    ensures BeforeFirst(a + b, c) == a
    decreases |a|
  {
    if |a| > 0 {
      assert (a + b)[1..] == a[1..] + b;
      BeforeFirstConcat(a[1..], b, c);
    } else {
      assert (a + b)[0] == c;
    }
  }

  lemma BasicPlanType()
    ensures PlanTypeOf(Plans[0]) == "basic"
  {
    var a := "basic";
    assert a[0] != '_' && a[1] != '_' && a[2] != '_' && a[3] != '_' && a[4] != '_';
    BeforeFirstConcat(a, "_plan", '_');
    assert a + "_plan" == Plans[0].id;
  }

  lemma StandardPlanType()
    ensures PlanTypeOf(Plans[1]) == "standard"
  {
    var a := "standard";
    assert a[0] != '_' && a[1] != '_' && a[2] != '_' && a[3] != '_' && a[4] != '_' && a[5] != '_' && a[6] != '_' && a[7] != '_';
    BeforeFirstConcat(a, "_plan", '_');
    assert a + "_plan" == Plans[1].id;
  }

  lemma PremiumPlanType()
    ensures PlanTypeOf(Plans[2]) == "premium"
  {
    var a := "premium";
    assert a[0] != '_' && a[1] != '_' && a[2] != '_' && a[3] != '_' && a[4] != '_' && a[5] != '_' && a[6] != '_';
    BeforeFirstConcat(a, "_plan", '_');
    assert a + "_plan" == Plans[2].id;
  }

  /** Every plan in the table names one of the schema's plan types, in table order. */
  lemma TablePlanTypes()
    ensures PlanTypeOf(Plans[0]) == "basic" && PlanTypeOf(Plans[1]) == "standard" && PlanTypeOf(Plans[2]) == "premium"
    ensures ParsePlanType(PlanTypeOf(Plans[0])) == Some(Basic)
    ensures ParsePlanType(PlanTypeOf(Plans[1])) == Some(Standard)
    ensures ParsePlanType(PlanTypeOf(Plans[2])) == Some(Premium)
  {
    BasicPlanType();
    StandardPlanType();
    PremiumPlanType();
  }

  // ---------------------------------------------------------------------------
  // The pet form

  predicate AllFilled(form: Form) {
    Filled(form, "petName") && Filled(form, "petType") && Filled(form, "breed")
    && Filled(form, "age") && Filled(form, "gender")
  }

  /** The fields `validateForm` checks, with their messages, in source order. */
  const PetFields := [("petName", "Pet name is required"), ("petType", "Pet type is required"),
                      ("breed", "Breed is required"), ("age", "Age is required"), ("gender", "Gender is required")]

  /** `validateForm`: an error for each empty field among the five, every one
      of them recorded (not just the first). */
  function ValidateForm(form: Form): (r: FormErrors)
    ensures r.Keys <= {"petName", "petType", "breed", "age", "gender"}
    ensures "petName" in r <==> !Filled(form, "petName")
    ensures "petType" in r <==> !Filled(form, "petType")
    ensures "breed" in r <==> !Filled(form, "breed")
    ensures "age" in r <==> !Filled(form, "age")
    ensures "gender" in r <==> !Filled(form, "gender")
    ensures "petName" in r ==> r["petName"] == Some("Pet name is required")
    ensures "petType" in r ==> r["petType"] == Some("Pet type is required")
    ensures "breed" in r ==> r["breed"] == Some("Breed is required")
    ensures "age" in r ==> r["age"] == Some("Age is required")
    ensures "gender" in r ==> r["gender"] == Some("Gender is required")
  {
    assert Names(PetFields) == {PetFields[0].0, PetFields[1].0, PetFields[2].0, PetFields[3].0, PetFields[4].0};
    RequireAllAt(form, PetFields, 0);
    RequireAllAt(form, PetFields, 1);
    RequireAllAt(form, PetFields, 2);
    RequireAllAt(form, PetFields, 3);
    RequireAllAt(form, PetFields, 4);
    RequireAll(form, PetFields)
  }

  /** The form is valid exactly when the five fields are filled; the medical
      history never matters. */
  lemma ValidIffFilled(form: Form, history: FormValue)
    ensures |ValidateForm(form)| == 0 <==> AllFilled(form)
    ensures ValidateForm(form["medicalHistory" := history]) == ValidateForm(form)
  {
    var r := ValidateForm(form);
    if !AllFilled(form) {
      assert r.Keys != {};
    }
    MedicalHistoryIgnored(form, history);
  }

  lemma MedicalHistoryIgnored(form: Form, history: FormValue)
    ensures ValidateForm(form["medicalHistory" := history]) == ValidateForm(form)
  {
    assert "medicalHistory" !in Names(PetFields);
    UnlistedFieldIgnored(form, PetFields, "medicalHistory", history);
  }

  /** `handleChange` for the pet form: a text field set, its error alone cleared. */
  function HandleChange(form: Form, errors: FormErrors, name: string, value: string): (r: (Form, FormErrors))
    ensures r.0.Keys == form.Keys + {name} && TextOf(r.0, name) == value
    ensures forall k :: k in form && k != name ==> r.0[k] == form[k]
    ensures r.1.Keys == errors.Keys && !HasError(r.1, name)
    ensures forall k :: k in errors && k != name ==> r.1[k] == errors[k]
  {
    SetField(form, errors, name, Text(value))
  }

  // ---------------------------------------------------------------------------
  // The policy request

  /** The request body for a validated form and a chosen plan; `petId` is the
      freshly generated ObjectId. Fields the schema drops are not carried. */
  function PolicyRequest(form: Form, plan: Plan, petId: string, now: Date): (r: PolicyBody)
    ensures r.petId == petId && r.planType == PlanTypeOf(plan) && r.petName == TextOf(form, "petName")
    ensures r.benefits == plan.benefits
    ensures r.coverageAmount == Some(plan.coverage) && r.monthlyPremium == Some(plan.price)
    ensures r.startDate == Some(now) && r.endDate == Some(AddOneYear(now)) && r.status == "active"
  {
    PolicyBody(petId, TextOf(form, "petName"), PlanTypeOf(plan), Some(plan.coverage), Some(plan.price),
               plan.benefits, Some(now), Some(AddOneYear(now)), "active")
  }

  /** A request from a form with a pet name, for a plan whose id names a
      schema plan type (every table plan does, by `TablePlanTypes`), is
      accepted by the create route: the policy is active, has the plan's type
      and coverage, and ends one calendar year after it starts. */
  lemma PageRequestAccepted(store: seq<Policy>, form: Form, plan: Plan, petId: string, authId: string, now: Date, newId: string)
    requires ParsePlanType(PlanTypeOf(plan)).Some?
    requires IsObjectIdText(petId) && authId != "" && TextOf(form, "petName") != ""
    ensures var r := CreatePolicy(store, PolicyRequest(form, plan, petId, now), authId, now, newId);
      && r.0.Success?
      && r.0.body.status == Active && Some(r.0.body.planType) == ParsePlanType(PlanTypeOf(plan))
      && r.0.body.coverageAmount == plan.coverage
      && r.0.body.endDate == AddOneYear(r.0.body.startDate) && Before(r.0.body.startDate, r.0.body.endDate)
  {
    var b := PolicyRequest(form, plan, petId, now);
    assert b.petId != "" && b.planType != "";
    assert CastPolicy(newId, authId, b, now, AddOneYear(now), "active").Some?;
  }

  // ---------------------------------------------------------------------------
  // Attaching the plan to the cart

  /** The cart map after a purchase: lines with the selected `cartItemId` get
      the insurance, every other line is left as it was. */
  function AttachInsurance(cart: seq<CartItem>, cartItemId: string, ins: CartInsurance): (r: seq<CartItem>)
    ensures |r| == |cart|
    ensures forall i :: 0 <= i < |cart| && cart[i].cartItemId == cartItemId ==> r[i] == cart[i].(insurance := Some(ins))
    ensures forall i :: 0 <= i < |cart| && cart[i].cartItemId != cartItemId ==> r[i] == cart[i]
  {
    seq(|cart|, i requires 0 <= i < |cart| =>
      if cart[i].cartItemId == cartItemId then cart[i].(insurance := Some(ins)) else cart[i])
  }
}
