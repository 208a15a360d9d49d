/** The React form state shared by the appointment and insurance pages: a map
    from field name to value, and a map from field name to error message in
    which a cleared error is kept as `null` (`None`). */
module Forms {
  import opened Common

  datatype FormValue = Text(text: string) | Flag(flag: bool)

  type Form = map<string, FormValue>

  type FormErrors = map<string, Option<string>>

  /** `formData[name]` is truthy. */
  predicate Filled(form: Form, name: string) {
    name in form && match form[name]
      case Text(t) => t != ""
      case Flag(b) => b
  }

  /** The text held by a field, "" when it is unset or not text. */
  function TextOf(form: Form, name: string): (r: string)
    ensures r != "" ==> Filled(form, name)
  {
    if name in form && form[name].Text? then form[name].text else ""
  }

  /** `formErrors[name]` is truthy. */
  predicate HasError(errors: FormErrors, name: string) {
    name in errors && errors[name].Some? && errors[name].value != ""
  }

  /** `setFormData({...formData, [name]: v})` followed by
      `if (formErrors[name]) setFormErrors({...formErrors, [name]: null})`. */
  function SetField(form: Form, errors: FormErrors, name: string, v: FormValue): (r: (Form, FormErrors))
    ensures r.0 == form[name := v]
    ensures r.0.Keys == form.Keys + {name}
    ensures forall k :: k in form && k != name ==> k in r.0 && r.0[k] == form[k]
    ensures r.1.Keys == errors.Keys
    ensures !HasError(r.1, name)
    ensures forall k :: k in errors && k != name ==> r.1[k] == errors[k]
  {
    (form[name := v], if HasError(errors, name) then errors[name := None] else errors)
  }

  /** One line of a `validateForm`: `if (!formData.f) errors.f = msg`. */
  function RequireField(form: Form, errors: FormErrors, name: string, msg: string): (r: FormErrors)
    ensures !Filled(form, name) ==> r == errors[name := Some(msg)]
    ensures Filled(form, name) ==> r == errors
  {
    if Filled(form, name) then errors else errors[name := Some(msg)]
  }

  /** The field names of a validator's list of (field, message) pairs. */
  function Names(fields: seq<(string, string)>): set<string> {
    set k | 0 <= k < |fields| :: fields[k].0
  }

  predicate DistinctNames(fields: seq<(string, string)>) {
    forall i, j :: 0 <= i < j < |fields| ==> fields[i].0 != fields[j].0
  }

  /** One more check after a run that met `RequireAll`'s contract meets it
      for the longer list. */
  lemma RequireStep(form: Form, init: seq<(string, string)>, last: (string, string), e: FormErrors)
    requires DistinctNames(init + [last])
    requires e.Keys <= Names(init)
    requires forall k :: 0 <= k < |init| ==> (init[k].0 in e <==> !Filled(form, init[k].0))
    requires forall k :: 0 <= k < |init| && init[k].0 in e ==> e[init[k].0] == Some(init[k].1)
    ensures var fields, r := init + [last], RequireField(form, e, last.0, last.1);
            && r.Keys <= Names(fields)
            && (forall k :: 0 <= k < |fields| ==> (fields[k].0 in r <==> !Filled(form, fields[k].0)))
            && (forall k :: 0 <= k < |fields| && fields[k].0 in r ==> r[fields[k].0] == Some(fields[k].1))
  {
    var fields, r := init + [last], RequireField(form, e, last.0, last.1);
    assert fields[|init|] == last;
    assert Names(fields) == Names(init) + {last.0} by {
      assert forall k :: 0 <= k < |init| ==> fields[k] == init[k];
    }
    forall k | 0 <= k < |fields|
      ensures (fields[k].0 in r <==> !Filled(form, fields[k].0))
      ensures fields[k].0 in r ==> r[fields[k].0] == Some(fields[k].1)
    {
      if k < |init| {
        assert fields[k] == init[k] && init[k].0 != last.0;
      }
    }
  }

  /** The entry of field `k` in `RequireAll`'s result, for one field at a time. */
  lemma RequireAllAt(form: Form, fields: seq<(string, string)>, k: nat)
    requires DistinctNames(fields) && k < |fields|
    ensures var r := RequireAll(form, fields);
            (fields[k].0 in r <==> !Filled(form, fields[k].0))
            && (fields[k].0 in r ==> r[fields[k].0] == Some(fields[k].1))
  {
  }

  /** Setting a field outside the list changes none of its errors. */
  lemma UnlistedFieldIgnored(form: Form, fields: seq<(string, string)>, name: string, v: FormValue)
    requires DistinctNames(fields) && name !in Names(fields)
    ensures RequireAll(form[name := v], fields) == RequireAll(form, fields)
  {
    assert forall k :: 0 <= k < |fields| ==> fields[k].0 in Names(fields);
    RequireAllCongruent(form[name := v], form, fields);
  }

  /** A further check on a field outside the list adds only that field's error. */
  lemma RequireBeyond(form: Form, fields: seq<(string, string)>, name: string, msg: string)
    requires DistinctNames(fields) && name !in Names(fields)
    ensures var r := RequireField(form, RequireAll(form, fields), name, msg);
            && r.Keys <= Names(fields) + {name}
            && (forall k :: 0 <= k < |fields| ==>
                  && (fields[k].0 in r <==> !Filled(form, fields[k].0))
                  && (fields[k].0 in r ==> r[fields[k].0] == Some(fields[k].1)))
            && (name in r <==> !Filled(form, name))
            && (name in r ==> r[name] == Some(msg))
  {
    assert forall k :: 0 <= k < |fields| ==> fields[k].0 in Names(fields);
  }

  /** Two forms that agree on which listed fields are filled get the same errors. */
  lemma {:induction false} RequireAllCongruent(form: Form, other: Form, fields: seq<(string, string)>)
    requires DistinctNames(fields)
    requires forall k :: 0 <= k < |fields| ==> Filled(form, fields[k].0) == Filled(other, fields[k].0)
    ensures RequireAll(form, fields) == RequireAll(other, fields)
    decreases |fields|
  {
    if |fields| > 0 {
      var init := fields[..|fields| - 1];
      assert forall k :: 0 <= k < |init| ==> init[k] == fields[k];
      RequireAllCongruent(form, other, init);
    }
  }

  /** A run of `if (!formData.f) errors.f = msg` lines from no errors: every
      empty field gets its message, every filled one none. */
  function RequireAll(form: Form, fields: seq<(string, string)>): (r: FormErrors)
    requires DistinctNames(fields)
    ensures r.Keys <= Names(fields)
    ensures forall k :: 0 <= k < |fields| ==> (fields[k].0 in r <==> !Filled(form, fields[k].0))
    ensures forall k :: 0 <= k < |fields| && fields[k].0 in r ==> r[fields[k].0] == Some(fields[k].1)
    decreases |fields|
  {
    if |fields| == 0 then map[]
    else
      var last := fields[|fields| - 1];
      var init := fields[..|fields| - 1];
      assert fields == init + [last];
      var e := RequireAll(form, init);
      RequireStep(form, init, last, e);
      RequireField(form, e, last.0, last.1)
  }
}
