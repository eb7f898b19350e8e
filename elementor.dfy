/** The page-builder integration's form handling: the submit check over a form's
    telephone inputs, the blur and input handlers that set or clear the
    `elementor-field-invalid` / `elementor-field-valid` classes, and the removal
    of the builder's own validation attributes. Its popup handlers, its
    `forceReinit` delegation and its once-only creation belong to `HostEvents`. */
module PageBuilderForms {
  import opened Text
  import opened PhonePatterns

  type FieldId = nat

  /** A telephone input of a page-builder form: its value, the two validation
      classes, and the builder's validation attributes `pattern`, `title` and
      `data-rule-phone`. */
  datatype TelField = TelField(value: string, invalidClass: bool, validClass: bool,
                               hasPattern: bool, hasTitle: bool, hasPhoneRule: bool)

  /** The trimmed value is non-empty and the page-builder pattern refuses it. */
  predicate Fails(value: string) {
    var v := JsTrim(value);
    v != "" && !Matches(PageBuilder, v)
  }

  /** The field marked with the outcome `ok` of a pattern check: exactly one of
      the two classes, and nothing else touched. */
  function Checked(t: TelField, ok: bool): (r: TelField)
    ensures r.validClass == ok && r.invalidClass == !ok
    ensures r.(invalidClass := t.invalidClass, validClass := t.validClass) == t
  {
    t.(invalidClass := !ok, validClass := ok)
  }

  /** The field after the submit handler looked at it (`inForm`: it belongs to
      the submitted form): a non-empty trimmed value is checked; an empty one, or
      a field of another form, keeps its classes. */
  function SubmitChecked(t: TelField, inForm: bool): TelField {
    var v := JsTrim(t.value);
    if inForm && v != "" then Checked(t, Matches(PageBuilder, v)) else t
  }

  /** Both classes removed, as the input handlers do. */
  function Unchecked(t: TelField): (r: TelField)
    ensures !r.invalidClass && !r.validClass
    ensures r.(invalidClass := t.invalidClass, validClass := t.validClass) == t
  {
    t.(invalidClass := false, validClass := false)
  }

  /** The field after a blur handler: an empty trimmed value clears both
      classes; a non-empty one gets exactly the class its pattern check names. */
  function Blurred(t: TelField): (r: TelField)
    ensures JsTrim(t.value) == "" ==> !r.invalidClass && !r.validClass
    ensures JsTrim(t.value) != "" ==>
              r.invalidClass != r.validClass && (r.validClass <==> Matches(PageBuilder, JsTrim(t.value)))
    ensures r.(invalidClass := t.invalidClass, validClass := t.validClass) == t
  {
    var v := JsTrim(t.value);
    if v != "" then Checked(t, Matches(PageBuilder, v)) else Unchecked(t)
  }

  /** The field with the builder's validation attributes removed. */
  function Stripped(t: TelField): (r: TelField)
    ensures !r.hasPattern && !r.hasTitle && !r.hasPhoneRule
    ensures r.(hasPattern := t.hasPattern, hasTitle := t.hasTitle, hasPhoneRule := t.hasPhoneRule) == t
  {
    t.(hasPattern := false, hasTitle := false, hasPhoneRule := false)
  }

  /** Blur runs the same check as submit on a non-empty value, so the two
      handlers never disagree about a field. */
  lemma BlurAgreesWithSubmit(t: TelField)
    requires JsTrim(t.value) != ""
    ensures Blurred(t) == SubmitChecked(t, true)
    ensures Blurred(t).invalidClass <==> Fails(t.value)
  {
  }

  /** A blur handler registered twice (the insertion handler adds one more on
      every insertion) ends in the same state as one. */
  lemma BlurIdempotent(t: TelField)
    ensures Blurred(Blurred(t)) == Blurred(t)
  {
  }

  /** Every value the page-builder check lets through is also accepted by the
      controller's regular pattern. */
  lemma PassingValueMatchesRegular(value: string)
    requires JsTrim(value) != "" && !Fails(value)
    ensures Matches(Regular, JsTrim(value))
  {
    PageBuilderSubsetOfRegular(JsTrim(value));
  }

  /** The fields after the submit handler checked each of `form` in turn. */
  function SubmitAll(m: map<FieldId, TelField>, form: seq<FieldId>): (r: map<FieldId, TelField>)
    requires forall i :: 0 <= i < |form| ==> form[i] in m
    ensures r.Keys == m.Keys
    decreases |form|
  {
    if form == [] then m
    else
      var prev := SubmitAll(m, form[..|form| - 1]);
      var f := form[|form| - 1];
      prev[f := SubmitChecked(prev[f], true)]
  }

  /** Some field of `form` is `bad`: the flag the submit loop accumulates. */
  predicate AnyOf(form: seq<FieldId>, bad: FieldId -> bool)
    decreases |form|
  {
    form != [] && (AnyOf(form[..|form| - 1], bad) || bad(form[|form| - 1]))
  }

  /** Checking a form marks each of its fields once, from its own value, however
      often it is listed, and leaves the other fields alone. */
  lemma {:induction false} SubmitAllAt(m: map<FieldId, TelField>, form: seq<FieldId>)
    requires forall i :: 0 <= i < |form| ==> form[i] in m
    ensures forall f :: f in m ==> SubmitAll(m, form)[f] == SubmitChecked(m[f], f in form)
    decreases |form|
  {
    if form != [] {
      var init := form[..|form| - 1];
      SubmitAllAt(m, init);
      forall g | g in m ensures SubmitAll(m, form)[g] == SubmitChecked(m[g], g in form) {
        assert g in form <==> g in init || g == form[|form| - 1];
      }
    }
  }

  /** The accumulated flag is set exactly when some field of the form is bad. */
  lemma {:induction false} AnyOfIff(form: seq<FieldId>, bad: FieldId -> bool)
    ensures AnyOf(form, bad) <==> exists i :: 0 <= i < |form| && bad(form[i])
    decreases |form|
  {
    if form != [] {
      var init := form[..|form| - 1];
      AnyOfIff(init, bad);
      if exists i :: 0 <= i < |init| && bad(init[i]) {
        var i :| 0 <= i < |init| && bad(init[i]);
        assert form[i] == init[i];
      }
      if exists i :: 0 <= i < |form| && bad(form[i]) {
        var i :| 0 <= i < |form| && bad(form[i]);
        if i < |init| { assert init[i] == form[i]; }
      }
    }
  }

  /** The telephone inputs of the document. */
  class Document {
    var fields: map<FieldId, TelField>

    constructor (fields: map<FieldId, TelField>)
      ensures this.fields == fields
    {
      this.fields := fields;
    }

    /** The `submit` handler of a `.elementor-form` whose telephone inputs are
        `form`: check every non-empty field and cancel the submission exactly
        when one of them fails. */
    method OnSubmit(form: seq<FieldId>) returns (cancel: bool)
      requires forall i :: 0 <= i < |form| ==> form[i] in fields
      modifies this
      ensures cancel <==> exists i :: 0 <= i < |form| && Fails(old(fields)[form[i]].value)
      ensures fields.Keys == old(fields).Keys
      ensures forall f :: f in fields ==> fields[f] == SubmitChecked(old(fields)[f], f in form)
    {
      ghost var failing := (g: FieldId) => g in old(fields) && Fails(old(fields)[g].value);
      cancel := false;
      for k := 0 to |form|
        invariant fields == SubmitAll(old(fields), form[..k])
        invariant cancel == AnyOf(form[..k], failing)
      {
        var f := form[k];
        assert form[..k + 1][..k] == form[..k];
        SubmitAllAt(old(fields), form[..k]);
        var failed := CheckField(f);
        cancel := cancel || failed;
      }
      assert form[..|form|] == form;
      SubmitAllAt(old(fields), form);
      AnyOfIff(form, failing);
    }

    /** The submit handler's step for one field of the form: a non-empty trimmed
        value gets the class its pattern check names; `failed` says whether the
        check refused it. */
    method CheckField(f: FieldId) returns (failed: bool)
      requires f in fields
      modifies this
      ensures failed == Fails(old(fields)[f].value)
      ensures fields == old(fields)[f := SubmitChecked(old(fields)[f], true)]
    {
      var t := fields[f];
      var value := JsTrim(t.value);
      failed := false;
      if value != "" {
        if !Matches(PageBuilder, value) {
          failed := true;
          t := t.(invalidClass := true, validClass := false);
        } else {
          t := t.(invalidClass := false, validClass := true);
        }
      }
      fields := fields[f := t];
    }

    /** The `input` handler: both classes removed. */
    method OnInput(f: FieldId)
      requires f in fields
      modifies this
      ensures fields == old(fields)[f := Unchecked(old(fields)[f])]
    {
      fields := fields[f := fields[f].(invalidClass := false, validClass := false)];
    }

    /** The `blur` handler. */
    method OnBlur(f: FieldId)
      requires f in fields
      modifies this
      ensures fields == old(fields)[f := Blurred(old(fields)[f])]
    {
      var t := fields[f];
      var value := JsTrim(t.value);
      if value != "" {
        if !Matches(PageBuilder, value) {
          t := t.(invalidClass := true, validClass := false);
        } else {
          t := t.(invalidClass := false, validClass := true);
        }
      } else {
        t := t.(invalidClass := false, validClass := false);
      }
      fields := fields[f := t];
    }

    /** The form-ready and insertion handlers on a scope whose telephone inputs
        are `scope`: each loses `pattern`, `title` and `data-rule-phone`; the
        blur and input handlers they add are `OnBlur` and `OnInput`. */
    method StripAttributes(scope: seq<FieldId>)
      requires forall i :: 0 <= i < |scope| ==> scope[i] in fields
      modifies this
      ensures fields.Keys == old(fields).Keys
      ensures forall f :: f in fields ==> fields[f] == if f in scope then Stripped(old(fields)[f]) else old(fields)[f]
    {
      for k := 0 to |scope|
        invariant fields.Keys == old(fields).Keys
        invariant forall f :: f in fields ==> fields[f] == if f in scope[..k] then Stripped(old(fields)[f]) else old(fields)[f]
      {
        var f := scope[k];
        assert forall g :: g in scope[..k + 1] <==> g in scope[..k] || g == f;
        fields := fields[f := fields[f].(hasPattern := false, hasTitle := false, hasPhoneRule := false)];
      }
      assert scope[..|scope|] == scope;
    }
  }
}
