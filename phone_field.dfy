/** The client-side phone-field controller (`DDIPhoneField`): a registry of the
    telephone inputs that carry a country-selector widget, the mask each input
    holds, and the per-container validation state (error/success classes and the
    inline error node).

    The page is abstracted to the document's telephone inputs, identified by
    `FieldId`, and the containers their validation state is shown on. The widget
    library and the mask plugin are oracles: what they return is passed in. */
module PhoneField {
  import opened Options
  import opened Text
  import opened PhonePatterns

  type FieldId = nat

  /** A widget instance returned by the country-selector library, with which of
      its methods exist (`destroy`, `isValidNumber`, `getNumber`). */
  datatype Handle = Handle(id: nat, canDestroy: bool, canCheckNumber: bool, canGetNumber: bool)

  /** The mask the mask plugin keeps on an input. */
  datatype Mask = Unmasked | Masked(pattern: string)

  const BrazilLandlineMask: string := "(00) 0000-00009"
  const BrazilMobileMask: string := "(00) 00000-0000"
  const InternationalMask: string := "000000000000000"

  const CharacterMessage: string := "O campo aceita apenas números e caracteres de telefone (#, -, *, etc)."
  const NumberMessage: string := "Número de telefone inválido."

  /** One `input[type="tel"]` of the document. */
  datatype Input = Input(
    inPopup: bool,           // has an `.elementor-popup-modal` ancestor
    container: Wrapper,      // `field.closest('.iti') || field.parentElement`
    value: string,
    widgetMarker: bool,      // class `iti__tel-input`
    popupMarker: bool,       // class `ddi-popup-field`
    hasPattern: bool,        // attribute `pattern`
    mask: Mask,
    listeners: seq<Handle>)  // one blur/input/submit listener set per attach, with the handle it captured

  /** The state a container shows: classes `iti--error` and `iti--success`, and the
      texts of its `.ddi-phone-error` child nodes in document order. */
  datatype Container = Container(error: bool, success: bool, messages: seq<string>)

  /** Outcome of the widget's `isValidNumber()`. */
  datatype NumberCheck = Valid | Invalid | Throws

  /** What `validateField` decides: nothing to show, success, or an error message. */
  datatype Verdict = Blank | Accepted | Rejected(message: string)

  // ---------------------------------------------------------------- masks

  /** The mask the Brazilian key-press handler installs for the current masked
      text: the mobile mask once the text is longer than a complete landline
      number `(00) 0000-0000`, the landline mask (with an optional ninth digit)
      otherwise. */
  function BrazilMaskFor(val: string): (m: string)
    ensures m == BrazilMobileMask <==> |val| > |"(00) 0000-0000"|
    ensures m == BrazilLandlineMask <==> |val| <= |"(00) 0000-0000"|
  {
    if |val| > 14 then BrazilMobileMask else BrazilLandlineMask
  }

  /** The mask installed on a country change: the Brazilian one for `br`, the
      fifteen-digit one for every other country. */
  function CountryMask(iso2: string): (m: string)
    ensures m == BrazilLandlineMask <==> iso2 == "br"
    ensures m == InternationalMask <==> iso2 != "br"
  {
    if iso2 == "br" then BrazilLandlineMask else InternationalMask
  }

  /** Only the two Brazilian masks carry the key-press handler. */
  predicate HasBrazilHandler(m: Mask) {
    m == Masked(BrazilLandlineMask) || m == Masked(BrazilMobileMask)
  }

  /** The input after a key press: a Brazilian mask re-selects itself from the
      current text; any other mask, or none, is left alone. */
  function AfterKeyPress(inp: Input): (r: Input)
    ensures r.value == inp.value && r.inPopup == inp.inPopup && r.listeners == inp.listeners
    ensures HasBrazilHandler(inp.mask) ==> r.mask == Masked(BrazilMaskFor(inp.value))
    ensures !HasBrazilHandler(inp.mask) ==> r == inp
  {
    if HasBrazilHandler(inp.mask) then inp.(mask := Masked(BrazilMaskFor(inp.value))) else inp
  }

  /** A Brazilian mask stays Brazilian under any number of key presses. */
  lemma {:induction false} KeyPressesKeepBrazilMask(inp: Input, texts: seq<string>)
    requires HasBrazilHandler(inp.mask)
    ensures HasBrazilHandler(TypeTexts(inp, texts).mask)
    decreases |texts|
  {
    if texts != [] {
      KeyPressesKeepBrazilMask(AfterKeyPress(inp.(value := texts[0])), texts[1..]);
    }
  }

  /** The input after the user has typed so that its text went through `texts`. */
  function TypeTexts(inp: Input, texts: seq<string>): Input
    decreases |texts|
  {
    if texts == [] then inp else TypeTexts(AfterKeyPress(inp.(value := texts[0])), texts[1..])
  }

  // ---------------------------------------------------------------- attach

  /** `initSinglePhoneField` returns at once for an input that already has the
      widget marker or a registry entry. */
  predicate Skips(inp: Input, registered: bool) {
    inp.widgetMarker || registered
  }

  /** The input after a successful widget construction: `marks` says whether the
      widget library marks the input; the Brazilian mask is applied only outside
      popups; the popup marker is added and the `pattern` attribute removed only
      inside popups; validation listeners capturing `h` are added. */
  function Attached(inp: Input, h: Handle, maskPlugin: bool, marks: bool): Input {
    inp.(widgetMarker := marks,
         mask := if !maskPlugin then inp.mask
                 else if inp.inPopup then Unmasked
                 else Masked(BrazilLandlineMask),
         listeners := inp.listeners + [h],
         popupMarker := inp.popupMarker || inp.inPopup,
         hasPattern := inp.hasPattern && !inp.inPopup)
  }

  /** The input after `initSinglePhoneField`, given whether it was registered and
      what the widget construction produced (`None`: it threw). The existing mask
      is removed before construction, so even a failed attempt leaves the input
      unmasked. */
  function InputAfterAttach(inp: Input, registered: bool, built: Option<Handle>, maskPlugin: bool, marks: bool): Input {
    if Skips(inp, registered) then inp
    else if built.None? then inp.(mask := if maskPlugin then Unmasked else inp.mask)
    else Attached(inp, built.value, maskPlugin, marks)
  }

  /** The registry after `initSinglePhoneField(f)`. */
  function RegistryAfterAttach(m: map<FieldId, Handle>, f: FieldId, inp: Input, built: Option<Handle>): map<FieldId, Handle> {
    if Skips(inp, f in m) || built.None? then m else m[f := built.value]
  }

  /** A second attach right after one that stored an entry changes nothing: no
      second entry, no second widget, no second set of listeners. */
  lemma AttachTwiceIsAttachOnce(m: map<FieldId, Handle>, f: FieldId, inp: Input,
                                b1: Option<Handle>, b2: Option<Handle>, maskPlugin: bool, marks: bool)
    requires f in RegistryAfterAttach(m, f, inp, b1)
    ensures var m1 := RegistryAfterAttach(m, f, inp, b1);
            var i1 := InputAfterAttach(inp, f in m, b1, maskPlugin, marks);
            RegistryAfterAttach(m1, f, i1, b2) == m1
            && InputAfterAttach(i1, f in m1, b2, maskPlugin, marks) == i1
  {
  }

  /** A construction that throws stores nothing, and changes nothing but the mask. */
  lemma FailedAttachStoresNothing(m: map<FieldId, Handle>, f: FieldId, inp: Input, maskPlugin: bool, marks: bool)
    ensures RegistryAfterAttach(m, f, inp, None) == m
    ensures InputAfterAttach(inp, f in m, None, maskPlugin, marks).(mask := inp.mask) == inp
  {
  }

  /** Whether the input is inside a popup is decided once, at attach: a mask is
      applied only when it is not; the popup marker and the removal of `pattern`
      happen only when it is. */
  lemma PopupDecidedAtAttach(inp: Input, h: Handle, maskPlugin: bool, marks: bool)
    ensures var r := Attached(inp, h, maskPlugin, marks);
            (r.mask.Masked? && r.mask != inp.mask ==> !inp.inPopup)
            && (r.popupMarker != inp.popupMarker ==> inp.inPopup)
            && (r.hasPattern != inp.hasPattern ==> inp.inPopup)
            && (inp.inPopup ==> r.popupMarker && !r.hasPattern && (maskPlugin ==> r.mask == Unmasked))
            && (!inp.inPopup && maskPlugin ==> r.mask == Masked(BrazilLandlineMask))
  {
  }

  /** The input after `forceReinitPopupField` removed its widget classes and mask. */
  function Detached(inp: Input, maskPlugin: bool): Input {
    inp.(widgetMarker := false, popupMarker := false, mask := if maskPlugin then Unmasked else inp.mask)
  }

  /** Detaching clears the way for a fresh attach. */
  lemma DetachedIsAttachable(inp: Input, maskPlugin: bool, h: Handle, marks: bool)
    ensures !Skips(Detached(inp, maskPlugin), false)
    ensures InputAfterAttach(Detached(inp, maskPlugin), false, Some(h), maskPlugin, marks).listeners == inp.listeners + [h]
  {
  }

  // ---------------------------------------------------------------- validation

  /** The decision of `validateField` on the trimmed value `value`. Popup fields
      use the pattern without white space and never consult the widget; other
      fields use the regular pattern and, with ten or more digits, the widget's
      `isValidNumber` (an exception from it is ignored). */
  function FieldVerdict(inPopup: bool, value: string, h: Handle, check: NumberCheck): Verdict {
    if inPopup then
      if value != "" && !Matches(Popup, value) then Rejected(CharacterMessage)
      else if value != "" then Accepted
      else Blank
    else if value != "" && !Matches(Regular, value) then Rejected(CharacterMessage)
    else if h.canCheckNumber && DigitCount(value) >= 10 && check == Invalid && value != "" then Rejected(NumberMessage)
    else if value != "" then Accepted
    else Blank
  }

  /** An empty trimmed value is never an error and shows nothing. */
  lemma EmptyIsBlank(inPopup: bool, value: string, h: Handle, check: NumberCheck)
    ensures FieldVerdict(inPopup, value, h, check) == Blank <==> value == ""
  {
  }

  /** A non-empty value with a character outside the pattern's class is rejected
      with the character message, whatever the widget says. */
  lemma {:induction false} ForeignCharacterRejected(inPopup: bool, value: string, h: Handle, check: NumberCheck, i: nat)
    requires i < |value|
    requires !InClass(if inPopup then Popup else Regular, value[i])
    ensures FieldVerdict(inPopup, value, h, check) == Rejected(CharacterMessage)
  {
    PlusInClassMatches(if inPopup then Popup else Regular, value);
  }

  /** A value made only of class characters passes the pattern step: it can be
      rejected only by the widget, only outside popups, and only with ten or more
      digits. */
  lemma {:induction false} ClassCharactersPassPattern(inPopup: bool, value: string, h: Handle, check: NumberCheck)
    requires value != "" && AllInClass(if inPopup then Popup else Regular, value)
    ensures FieldVerdict(inPopup, value, h, check) == Accepted
            || (FieldVerdict(inPopup, value, h, check) == Rejected(NumberMessage)
                && !inPopup && h.canCheckNumber && DigitCount(value) >= 10 && check == Invalid)
  {
    PlusInClassMatches(if inPopup then Popup else Regular, value);
  }

  /** The widget's answer matters only for fields outside popups that have the
      `isValidNumber` method and at least ten digits; an exception counts as valid. */
  lemma NumberCheckConsultedOnlyWhen(inPopup: bool, value: string, h: Handle, c1: NumberCheck, c2: NumberCheck)
    ensures FieldVerdict(inPopup, value, h, c1) != FieldVerdict(inPopup, value, h, c2)
            ==> !inPopup && h.canCheckNumber && DigitCount(value) >= 10
    ensures FieldVerdict(inPopup, value, h, Throws) == FieldVerdict(inPopup, value, h, Valid)
  {
  }

  /** `showError`: the error class, and the first error node (created only when
      there is none) showing `msg`. */
  function WithError(c: Container, msg: string): Container {
    c.(error := true, messages := if c.messages == [] then [msg] else c.messages[0 := msg])
  }

  /** `showSuccess`: the success class, no error class, first error node removed. */
  function WithSuccess(c: Container): Container {
    c.(success := true, error := false, messages := if c.messages == [] then [] else c.messages[1..])
  }

  /** `clearValidation`: neither class, first error node removed. */
  function Cleared(c: Container): Container {
    Container(false, false, if c.messages == [] then [] else c.messages[1..])
  }

  /** Repeated failures leave exactly one error node, showing the last message. */
  lemma {:induction false} RepeatedErrorsOneNode(c: Container, msgs: seq<string>)
    requires |c.messages| <= 1 && msgs != []
    ensures ShowErrors(c, msgs).messages == [msgs[|msgs| - 1]]
    ensures ShowErrors(c, msgs).error
    decreases |msgs|
  {
    if |msgs| > 1 {
      RepeatedErrorsOneNode(WithError(c, msgs[0]), msgs[1..]);
    }
  }

  /** The container after `showError` with each of `msgs` in turn. */
  function ShowErrors(c: Container, msgs: seq<string>): Container
    decreases |msgs|
  {
    if msgs == [] then c else ShowErrors(WithError(c, msgs[0]), msgs[1..])
  }

  /** Success and clearing leave no error node and no error class. */
  lemma SuccessAndClearRemoveError(c: Container)
    requires |c.messages| <= 1
    ensures WithSuccess(c).messages == [] && !WithSuccess(c).error && WithSuccess(c).success
    ensures Cleared(c).messages == [] && !Cleared(c).error && !Cleared(c).success
  {
  }

  /** The container after `validateField` reached verdict `v`. Fields outside
      popups clear the container first; popup fields do not. */
  function AfterValidation(c: Container, inPopup: bool, v: Verdict): Container {
    var start := if inPopup then c else Cleared(c);
    match v
    case Blank => start
    case Accepted => WithSuccess(start)
    case Rejected(m) => WithError(start, m)
  }

  /** Outside popups the container ends in exactly the state the verdict names:
      error class and one node for a rejection, success class and no node for an
      acceptance, neither for a blank value. */
  lemma RegularValidationState(c: Container, v: Verdict)
    requires |c.messages| <= 1
    ensures var r := AfterValidation(c, false, v);
            (r.error <==> v.Rejected?) && (r.success <==> v.Accepted?)
            && r.messages == (if v.Rejected? then [v.message] else [])
  {
  }

  /** In a popup the success class is never removed, so a field that was accepted
      and is then rejected shows both classes. */
  lemma PopupKeepsStaleSuccess(c: Container, msg: string)
    requires |c.messages| <= 1
    ensures var r := AfterValidation(AfterValidation(c, true, Accepted), true, Rejected(msg));
            r.error && r.success && r.messages == [msg]
  {
  }

  // ------------------------------------------------ accumulated listener sets

  /** A `blur` runs `validateField` once per listener set, in the order the sets
      were added; the `i`-th set consults its own widget `hs[i]`, which answers
      `checks[i]`. `value` is the trimmed value, which a blur does not change. */
  function BlurSets(inPopup: bool, value: string, c: Container, hs: seq<Handle>, checks: seq<NumberCheck>): Container
    requires |checks| == |hs|
    decreases |hs|
  {
    if hs == [] then c
    else
      var n := |hs| - 1;
      AfterValidation(BlurSets(inPopup, value, c, hs[..n], checks[..n]), inPopup, FieldVerdict(inPopup, value, hs[n], checks[n]))
  }

  /** Running one more set extends the fold by one step. */
  lemma BlurSetsExtend(inPopup: bool, value: string, c: Container, hs: seq<Handle>, checks: seq<NumberCheck>, k: nat)
    requires |checks| == |hs| && k < |hs|
    ensures BlurSets(inPopup, value, c, hs[..k + 1], checks[..k + 1])
            == AfterValidation(BlurSets(inPopup, value, c, hs[..k], checks[..k]), inPopup, FieldVerdict(inPopup, value, hs[k], checks[k]))
  {
    assert hs[..k + 1][..k] == hs[..k] && checks[..k + 1][..k] == checks[..k];
  }

  /** However many sets run, a container with at most one error node keeps at
      most one. */
  lemma {:induction false} BlurKeepsOneNode(inPopup: bool, value: string, c: Container, hs: seq<Handle>, checks: seq<NumberCheck>)
    requires |checks| == |hs| && |c.messages| <= 1
    ensures |BlurSets(inPopup, value, c, hs, checks).messages| <= 1
    decreases |hs|
  {
    if hs != [] {
      var n := |hs| - 1;
      BlurKeepsOneNode(inPopup, value, c, hs[..n], checks[..n]);
    }
  }

  /** Outside popups the set added last decides what the field shows: every set
      clears the container first, so only the last verdict survives. */
  lemma {:induction false} BlurLastSetDecides(value: string, c: Container, hs: seq<Handle>, checks: seq<NumberCheck>)
    requires |checks| == |hs| && hs != [] && |c.messages| <= 1
    ensures var r := BlurSets(false, value, c, hs, checks);
            var v := FieldVerdict(false, value, hs[|hs| - 1], checks[|hs| - 1]);
            (r.error <==> v.Rejected?) && (r.success <==> v.Accepted?)
            && r.messages == (if v.Rejected? then [v.message] else [])
  {
    var n := |hs| - 1;
    BlurKeepsOneNode(false, value, c, hs[..n], checks[..n]);
    RegularValidationState(BlurSets(false, value, c, hs[..n], checks[..n]), FieldVerdict(false, value, hs[n], checks[n]));
  }

  /** What a `submit` has done to one field after some of its listener sets ran:
      whether one of them cancelled it, the field's value, and its container. */
  datatype Submission = Submission(cancel: bool, value: string, container: Container)

  /** One submit listener set with widget `h`: validate the current value; a
      rejection cancels the submit, an acceptance writes the widget's E.164 number
      `e164` into the field when it has `getNumber` and the number is non-empty. */
  function SubmitStep(inPopup: bool, s: Submission, h: Handle, check: NumberCheck, e164: string): Submission {
    var v := FieldVerdict(inPopup, JsTrim(s.value), h, check);
    var c := AfterValidation(s.container, inPopup, v);
    if v.Rejected? then s.(cancel := true, container := c)
    else s.(value := if h.canGetNumber && e164 != "" then e164 else s.value, container := c)
  }

  /** The sets `hs` run in turn on one `submit`; each sees the value the previous
      ones left, and `preventDefault` does not stop the later ones. */
  function SubmitSets(inPopup: bool, s: Submission, hs: seq<Handle>, checks: seq<NumberCheck>, e164s: seq<string>): Submission
    requires |checks| == |hs| && |e164s| == |hs|
    decreases |hs|
  {
    if hs == [] then s
    else
      var n := |hs| - 1;
      SubmitStep(inPopup, SubmitSets(inPopup, s, hs[..n], checks[..n], e164s[..n]), hs[n], checks[n], e164s[n])
  }

  /** One set cancels the submit exactly when it rejects the value it sees. */
  lemma SubmitStepCancel(inPopup: bool, s: Submission, h: Handle, check: NumberCheck, e164: string)
    ensures SubmitStep(inPopup, s, h, check, e164).cancel
            <==> s.cancel || FieldVerdict(inPopup, JsTrim(s.value), h, check).Rejected?
  {
  }

  /** `SubmitStep` taken apart: the cancel flag, the value and the container. */
  lemma SubmitStepParts(inPopup: bool, s: Submission, h: Handle, check: NumberCheck, e164: string)
    ensures var v := FieldVerdict(inPopup, JsTrim(s.value), h, check);
            SubmitStep(inPopup, s, h, check, e164)
            == Submission(s.cancel || v.Rejected?,
                          if v.Rejected? || !h.canGetNumber || e164 == "" then s.value else e164,
                          AfterValidation(s.container, inPopup, v))
  {
  }

  /** Running one more set extends the fold by one step. */
  lemma SubmitSetsExtend(inPopup: bool, s: Submission, hs: seq<Handle>, checks: seq<NumberCheck>, e164s: seq<string>, k: nat)
    requires |checks| == |hs| && |e164s| == |hs| && k < |hs|
    ensures SubmitSets(inPopup, s, hs[..k + 1], checks[..k + 1], e164s[..k + 1])
            == SubmitStep(inPopup, SubmitSets(inPopup, s, hs[..k], checks[..k], e164s[..k]), hs[k], checks[k], e164s[k])
  {
    assert hs[..k + 1][..k] == hs[..k] && checks[..k + 1][..k] == checks[..k] && e164s[..k + 1][..k] == e164s[..k];
  }

  /** For each set, whether it rejects the value the sets before it left. */
  function Rejections(inPopup: bool, s: Submission, hs: seq<Handle>, checks: seq<NumberCheck>, e164s: seq<string>): (r: seq<bool>)
    requires |checks| == |hs| && |e164s| == |hs|
    ensures |r| == |hs|
    decreases |hs|
  {
    if hs == [] then []
    else
      var n := |hs| - 1;
      var before := SubmitSets(inPopup, s, hs[..n], checks[..n], e164s[..n]);
      Rejections(inPopup, s, hs[..n], checks[..n], e164s[..n])
        + [FieldVerdict(inPopup, JsTrim(before.value), hs[n], checks[n]).Rejected?]
  }

  /** The last flag is the verdict of the last set on the value the earlier sets
      left. */
  lemma RejectionsLast(inPopup: bool, s: Submission, hs: seq<Handle>, checks: seq<NumberCheck>, e164s: seq<string>)
    requires |checks| == |hs| && |e164s| == |hs| && hs != []
    ensures var n := |hs| - 1;
            Rejections(inPopup, s, hs, checks, e164s)[n]
            == FieldVerdict(inPopup, JsTrim(SubmitSets(inPopup, s, hs[..n], checks[..n], e164s[..n]).value), hs[n], checks[n]).Rejected?
  {
  }

  /** A flag does not depend on the sets after it. */
  lemma RejectionsPrefix(inPopup: bool, s: Submission, hs: seq<Handle>, checks: seq<NumberCheck>, e164s: seq<string>, i: nat)
    requires |checks| == |hs| && |e164s| == |hs| && i < |hs| - 1
    ensures var n := |hs| - 1;
            Rejections(inPopup, s, hs, checks, e164s)[i] == Rejections(inPopup, s, hs[..n], checks[..n], e164s[..n])[i]
  {
  }

  /** The `i`-th flag is the verdict of the `i`-th set on the value the first `i`
      sets left. */
  lemma {:induction false} RejectionsAt(inPopup: bool, s: Submission, hs: seq<Handle>, checks: seq<NumberCheck>, e164s: seq<string>, i: nat)
    requires |checks| == |hs| && |e164s| == |hs| && i < |hs|
    ensures Rejections(inPopup, s, hs, checks, e164s)[i]
            == FieldVerdict(inPopup, JsTrim(SubmitSets(inPopup, s, hs[..i], checks[..i], e164s[..i]).value), hs[i], checks[i]).Rejected?
    decreases |hs|
  {
    var n := |hs| - 1;
    if i < n {
      assert hs[..n][..i] == hs[..i] && checks[..n][..i] == checks[..i] && e164s[..n][..i] == e164s[..i];
      assert hs[..n][i] == hs[i] && checks[..n][i] == checks[i];
      RejectionsPrefix(inPopup, s, hs, checks, e164s, i);
      RejectionsAt(inPopup, s, hs[..n], checks[..n], e164s[..n], i);
    } else {
      RejectionsLast(inPopup, s, hs, checks, e164s);
    }
  }

  /** The submit is cancelled exactly when it already was or some listener set
      rejects. */
  lemma {:induction false} SubmitCancelIff(inPopup: bool, s: Submission, hs: seq<Handle>, checks: seq<NumberCheck>, e164s: seq<string>)
    requires |checks| == |hs| && |e164s| == |hs|
    ensures SubmitSets(inPopup, s, hs, checks, e164s).cancel
            <==> s.cancel || true in Rejections(inPopup, s, hs, checks, e164s)
    decreases |hs|
  {
    if hs != [] {
      var n := |hs| - 1;
      var before := SubmitSets(inPopup, s, hs[..n], checks[..n], e164s[..n]);
      SubmitCancelIff(inPopup, s, hs[..n], checks[..n], e164s[..n]);
      SubmitStepCancel(inPopup, before, hs[n], checks[n], e164s[n]);
      var pre := Rejections(inPopup, s, hs[..n], checks[..n], e164s[..n]);
      var last := FieldVerdict(inPopup, JsTrim(before.value), hs[n], checks[n]).Rejected?;
      assert true in pre + [last] <==> true in pre || last;
    }
  }

  /** After a submit the field holds its old value or the E.164 number of a set
      whose widget has `getNumber`, possibly a destroyed one. */
  lemma {:induction false} SubmitValueOrigin(inPopup: bool, s: Submission, hs: seq<Handle>, checks: seq<NumberCheck>, e164s: seq<string>)
    requires |checks| == |hs| && |e164s| == |hs|
    ensures var r := SubmitSets(inPopup, s, hs, checks, e164s);
            r.value == s.value || exists i :: 0 <= i < |hs| && hs[i].canGetNumber && r.value == e164s[i]
    decreases |hs|
  {
    if hs != [] {
      var n := |hs| - 1;
      SubmitValueOrigin(inPopup, s, hs[..n], checks[..n], e164s[..n]);
      var r := SubmitSets(inPopup, s, hs[..n], checks[..n], e164s[..n]);
      if r.value != s.value {
        var i :| 0 <= i < n && hs[..n][i].canGetNumber && r.value == e164s[..n][i];
        assert hs[i].canGetNumber && r.value == e164s[i];
      }
    }
  }

  /** A value with a character outside the class is refused by every set, so a
      submit with at least one set is cancelled and the value is never rewritten. */
  lemma {:induction false} SubmitForeignCharacterCancels(inPopup: bool, s: Submission, hs: seq<Handle>, checks: seq<NumberCheck>, e164s: seq<string>, k: nat)
    requires |checks| == |hs| && |e164s| == |hs|
    requires k < |JsTrim(s.value)| && !InClass(if inPopup then Popup else Regular, JsTrim(s.value)[k])
    ensures var r := SubmitSets(inPopup, s, hs, checks, e164s);
            r.value == s.value && (r.cancel <==> s.cancel || hs != [])
    decreases |hs|
  {
    if hs != [] {
      var n := |hs| - 1;
      SubmitForeignCharacterCancels(inPopup, s, hs[..n], checks[..n], e164s[..n], k);
      ForeignCharacterRejected(inPopup, JsTrim(s.value), hs[n], checks[n], k);
    }
  }


  // ---------------------------------------------------------------- controller

  /** Handles whose `destroy` exists among the entries of `m` at `keys`. */
  function Destroyable(m: map<FieldId, Handle>, keys: set<FieldId>): set<Handle> {
    set f | f in keys && f in m && m[f].canDestroy :: m[f]
  }

  predicate Distinct(s: seq<FieldId>) {
    forall i, j :: 0 <= i < j < |s| ==> s[i] != s[j]
  }

  /** The inputs of `order` without the widget marker: what
      `querySelectorAll('input[type="tel"]:not(.iti__tel-input)')` returns. */
  function Unmarked(order: seq<FieldId>, inputs: map<FieldId, Input>): (r: seq<FieldId>)
    requires forall i :: 0 <= i < |order| ==> order[i] in inputs
    ensures forall i :: 0 <= i < |r| ==> r[i] in inputs
  {
    if order == [] then []
    else
      var rest := Unmarked(order[1..], inputs);
      if inputs[order[0]].widgetMarker then rest else [order[0]] + rest
  }

  /** The scan finds exactly the unmarked inputs of the document, each once. */
  lemma {:induction false} UnmarkedMembers(order: seq<FieldId>, inputs: map<FieldId, Input>)
    requires forall i :: 0 <= i < |order| ==> order[i] in inputs
    ensures forall f :: f in Unmarked(order, inputs) <==> f in order && !inputs[f].widgetMarker
    ensures Distinct(order) ==> Distinct(Unmarked(order, inputs))
  {
    if order != [] {
      UnmarkedMembers(order[1..], inputs);
      assert forall f :: f in order <==> f == order[0] || f in order[1..];
    }
  }

  /** The controller's invariant over its state: every registry entry belongs to
      a telephone input, and `order` lists inputs without repetition. */
  ghost predicate Coherent(phoneFields: map<FieldId, Handle>, inputs: map<FieldId, Input>, order: seq<FieldId>) {
    && phoneFields.Keys <= inputs.Keys
    && (forall i :: 0 <= i < |order| ==> order[i] in inputs)
    && Distinct(order)
  }

  /** Writing a key twice keeps only the second write. */
  lemma OverwriteTwice<K, V>(m: map<K, V>, k: K, a: V, b: V)
    ensures m[k := a][k := b] == m[k := b]
  {
  }

  /** The registry, the inputs and the disposed widgets, as one value. */
  datatype Snapshot = Snapshot(registry: map<FieldId, Handle>, inputs: map<FieldId, Input>, disposed: set<Handle>)

  /** The state after `initSinglePhoneField` ran on each of `fs` in turn. */
  function AttachAll(st: Snapshot, fs: seq<FieldId>, build: FieldId -> Option<Handle>, maskPlugin: bool, marks: bool): (r: Snapshot)
    requires forall i :: 0 <= i < |fs| ==> fs[i] in st.inputs
    ensures r.inputs.Keys == st.inputs.Keys && r.disposed == st.disposed
    decreases |fs|
  {
    if fs == [] then st
    else
      var prev := AttachAll(st, fs[..|fs| - 1], build, maskPlugin, marks);
      var f := fs[|fs| - 1];
      prev.(registry := RegistryAfterAttach(prev.registry, f, prev.inputs[f], build(f)),
            inputs := prev.inputs[f := InputAfterAttach(prev.inputs[f], f in prev.registry, build(f), maskPlugin, marks)])
  }

  /** Attaching `a` and then `b` is attaching `a + b`. */
  lemma {:induction false} AttachAllAppend(st: Snapshot, a: seq<FieldId>, b: seq<FieldId>, build: FieldId -> Option<Handle>, maskPlugin: bool, marks: bool)
    requires forall i :: 0 <= i < |a| ==> a[i] in st.inputs
    requires forall i :: 0 <= i < |b| ==> b[i] in st.inputs
    ensures AttachAll(st, a + b, build, maskPlugin, marks) == AttachAll(AttachAll(st, a, build, maskPlugin, marks), b, build, maskPlugin, marks)
    decreases |b|
  {
    if b == [] {
      assert a + b == a;
    } else {
      AttachAllAppend(st, a, b[..|b| - 1], build, maskPlugin, marks);
      assert (a + b)[..|a + b| - 1] == a + b[..|b| - 1];
    }
  }

  /** The last element of a non-empty list is in it; every other element is in
      its front. */
  lemma SplitLast(fs: seq<FieldId>, g: FieldId)
    requires fs != []
    ensures g in fs <==> g in fs[..|fs| - 1] || g == fs[|fs| - 1]
  {
    if g in fs {
      var i :| 0 <= i < |fs| && fs[i] == g;
      if i < |fs| - 1 { assert fs[..|fs| - 1][i] == g; }
    }
    if g in fs[..|fs| - 1] {
      var i :| 0 <= i < |fs| - 1 && fs[..|fs| - 1][i] == g;
      assert fs[i] == g;
    }
  }

  /** Attaching a list of distinct inputs registers exactly the listed inputs that
      were neither marked nor registered and whose construction succeeds, with the
      widget built for them, and leaves every other entry as it was. */
  lemma {:induction false} AttachAllRegistry(st: Snapshot, fs: seq<FieldId>, build: FieldId -> Option<Handle>, maskPlugin: bool, marks: bool)
    requires forall i :: 0 <= i < |fs| ==> fs[i] in st.inputs
    requires Distinct(fs)
    ensures var r := AttachAll(st, fs, build, maskPlugin, marks).registry;
            forall f :: (f in r <==> f in st.registry || (f in fs && !st.inputs[f].widgetMarker && build(f).Some?))
                        && (f in r ==> Some(r[f]) == if f in st.registry then Some(st.registry[f]) else build(f))
    ensures forall f :: f in st.inputs && f !in fs ==> AttachAll(st, fs, build, maskPlugin, marks).inputs[f] == st.inputs[f]
    decreases |fs|
  {
    if fs != [] {
      var init := fs[..|fs| - 1];
      var f := fs[|fs| - 1];
      assert Distinct(init);
      AttachAllRegistry(st, init, build, maskPlugin, marks);
      forall g ensures g in fs <==> g in init || g == f { SplitLast(fs, g); }
      assert f !in init;
    }
  }

  /** Attaching a list of distinct inputs attaches each listed input once, from
      its original state, and leaves the others alone. */
  lemma {:induction false} AttachAllInputs(st: Snapshot, fs: seq<FieldId>, build: FieldId -> Option<Handle>, maskPlugin: bool, marks: bool)
    requires forall i :: 0 <= i < |fs| ==> fs[i] in st.inputs
    requires Distinct(fs)
    ensures var r := AttachAll(st, fs, build, maskPlugin, marks).inputs;
            forall f :: f in st.inputs ==>
              r[f] == if f in fs then InputAfterAttach(st.inputs[f], f in st.registry, build(f), maskPlugin, marks)
                      else st.inputs[f]
    decreases |fs|
  {
    if fs != [] {
      var init := fs[..|fs| - 1];
      var f := fs[|fs| - 1];
      assert Distinct(init);
      AttachAllInputs(st, init, build, maskPlugin, marks);
      AttachAllRegistry(st, init, build, maskPlugin, marks);
      forall g ensures g in fs <==> g in init || g == f { SplitLast(fs, g); }
      assert f !in init;
    }
  }

  /** The state after `forceReinitPopupField` ran on each of `fs` in turn, each
      preceded by the removal of the input's `pattern` attribute. */
  function ReinitAll(st: Snapshot, fs: seq<FieldId>, maskPlugin: bool): (r: Snapshot)
    requires forall i :: 0 <= i < |fs| ==> fs[i] in st.inputs
    ensures r.inputs.Keys == st.inputs.Keys
    decreases |fs|
  {
    if fs == [] then st
    else
      var prev := ReinitAll(st, fs[..|fs| - 1], maskPlugin);
      var f := fs[|fs| - 1];
      Snapshot(prev.registry - {f},
               prev.inputs[f := Detached(prev.inputs[f].(hasPattern := false), maskPlugin)],
               prev.disposed + Destroyable(prev.registry, {f}))
  }

  /** Re-initialising the inputs of a popup forgets exactly their entries and
      keeps every other entry as it was, whatever their order or repetitions. */
  lemma {:induction false} ReinitAllRegistry(st: Snapshot, fs: seq<FieldId>, maskPlugin: bool)
    requires forall i :: 0 <= i < |fs| ==> fs[i] in st.inputs
    ensures var r := ReinitAll(st, fs, maskPlugin).registry;
            forall f :: (f in r <==> f in st.registry && f !in fs) && (f in r ==> r[f] == st.registry[f])
    decreases |fs|
  {
    if fs != [] {
      ReinitAllRegistry(st, fs[..|fs| - 1], maskPlugin);
      forall g ensures g in fs <==> g in fs[..|fs| - 1] || g == fs[|fs| - 1] { SplitLast(fs, g); }
    }
  }

  /** Re-initialising the inputs of a popup detaches exactly those inputs (once
      or several times, to the same effect) and leaves the others alone. */
  lemma {:induction false} ReinitAllInputs(st: Snapshot, fs: seq<FieldId>, maskPlugin: bool)
    requires forall i :: 0 <= i < |fs| ==> fs[i] in st.inputs
    ensures var r := ReinitAll(st, fs, maskPlugin).inputs;
            forall f :: f in st.inputs ==>
              r[f] == if f in fs then Detached(st.inputs[f].(hasPattern := false), maskPlugin) else st.inputs[f]
    decreases |fs|
  {
    if fs != [] {
      ReinitAllInputs(st, fs[..|fs| - 1], maskPlugin);
      forall g ensures g in fs <==> g in fs[..|fs| - 1] || g == fs[|fs| - 1] { SplitLast(fs, g); }
    }
  }

  /** Forgetting one more key `f`, from a registry that has already lost the
      keys `done`, disposes `f`'s widget unless it was already forgotten. */
  lemma DestroyableAdd(m: map<FieldId, Handle>, rest: map<FieldId, Handle>, done: set<FieldId>, f: FieldId)
    requires forall g :: g in rest <==> g in m && g !in done
    requires forall g :: g in rest ==> rest[g] == m[g]
    ensures Destroyable(m, done + {f}) == Destroyable(m, done) + Destroyable(rest, {f})
  {
  }

  /** Re-initialising the inputs of a popup disposes exactly the widgets of their
      entries that have a `destroy` method. */
  lemma {:induction false} ReinitAllDisposed(st: Snapshot, fs: seq<FieldId>, maskPlugin: bool)
    requires forall i :: 0 <= i < |fs| ==> fs[i] in st.inputs
    ensures ReinitAll(st, fs, maskPlugin).disposed == st.disposed + Destroyable(st.registry, set i | 0 <= i < |fs| :: fs[i])
    decreases |fs|
  {
    if fs != [] {
      var init := fs[..|fs| - 1];
      var f := fs[|fs| - 1];
      ReinitAllDisposed(st, init, maskPlugin);
      var prevGone := set i | 0 <= i < |init| :: init[i];
      var gone := set i | 0 <= i < |fs| :: fs[i];
      assert gone == prevGone + {f} by {
        forall g ensures g in gone <==> g in prevGone || g == f {
          SplitLast(fs, g);
          assert g in fs <==> g in gone;
          assert g in init <==> g in prevGone;
        }
      }
      var prev := ReinitAll(st, init, maskPlugin).registry;
      assert (forall g :: g in prev <==> g in st.registry && g !in prevGone)
             && (forall g :: g in prev ==> prev[g] == st.registry[g]) by {
        ReinitAllRegistry(st, init, maskPlugin);
        forall g ensures g in init <==> g in prevGone {
          if g in init {
            var i :| 0 <= i < |init| && init[i] == g;
          }
        }
      }
      DestroyableAdd(st.registry, prev, prevGone, f);
    }
  }

  /** The document scan attaches each input that is listed and unmarked, from its
      state before the scan, and leaves every other input alone; it registers
      exactly the inputs that were registered before or were listed, unmarked and
      successfully constructed. */
  lemma {:induction false} ScanResult(st: Snapshot, order: seq<FieldId>, build: FieldId -> Option<Handle>, maskPlugin: bool, marks: bool)
    requires Coherent(st.registry, st.inputs, order)
    ensures var r := AttachAll(st, Unmarked(order, st.inputs), build, maskPlugin, marks);
            && (forall f :: f in st.inputs ==>
                  r.inputs[f] == if f in order && !st.inputs[f].widgetMarker
                                 then InputAfterAttach(st.inputs[f], f in st.registry, build(f), maskPlugin, marks)
                                 else st.inputs[f])
            && (forall f :: f in r.registry <==> f in st.registry || (f in order && !st.inputs[f].widgetMarker && build(f).Some?))
            && (forall f :: f in st.registry ==> r.registry[f] == st.registry[f])
            && (forall f :: f in r.registry && f !in st.registry ==> build(f) == Some(r.registry[f]))
  {
    var fs := Unmarked(order, st.inputs);
    UnmarkedMembers(order, st.inputs);
    AttachAllRegistry(st, fs, build, maskPlugin, marks);
    AttachAllInputs(st, fs, build, maskPlugin, marks);
  }

  /** Scanning the document a second time with the same widget outcomes changes
      nothing: registered inputs are skipped, and an input whose construction
      failed fails again with the same effect. */
  lemma {:induction false} RescanChangesNothing(registry: map<FieldId, Handle>, inputs: map<FieldId, Input>, order: seq<FieldId>,
                                                build: FieldId -> Option<Handle>, maskPlugin: bool, marks: bool)
    requires Coherent(registry, inputs, order)
    ensures var r1 := AttachAll(Snapshot(registry, inputs, {}), Unmarked(order, inputs), build, maskPlugin, marks);
            Coherent(r1.registry, r1.inputs, order)
            && AttachAll(r1, Unmarked(order, r1.inputs), build, maskPlugin, marks) == r1
  {
    var r1 := AttachAll(Snapshot(registry, inputs, {}), Unmarked(order, inputs), build, maskPlugin, marks);
    assert Coherent(r1.registry, r1.inputs, order)
           && forall f :: (f in r1.inputs && f in order && !r1.inputs[f].widgetMarker && f !in r1.registry) ==>
                             build(f).None? && (maskPlugin ==> r1.inputs[f].mask == Unmasked)
    by {
      ScanResult(Snapshot(registry, inputs, {}), order, build, maskPlugin, marks);
    }
    ScanFixpoint(r1, order, build, maskPlugin, marks);
  }

  /** A state where every unmarked, unregistered input of `order` is one whose
      construction fails and which is already unmasked is left as it is by a scan. */
  lemma {:induction false} ScanFixpoint(st: Snapshot, order: seq<FieldId>, build: FieldId -> Option<Handle>, maskPlugin: bool, marks: bool)
    requires Coherent(st.registry, st.inputs, order)
    requires forall f :: (f in st.inputs && f in order && !st.inputs[f].widgetMarker && f !in st.registry) ==>
                           build(f).None? && (maskPlugin ==> st.inputs[f].mask == Unmasked)
    ensures AttachAll(st, Unmarked(order, st.inputs), build, maskPlugin, marks) == st
  {
    var r := AttachAll(st, Unmarked(order, st.inputs), build, maskPlugin, marks);
    ScanResult(st, order, build, maskPlugin, marks);
    assert r.registry.Keys == st.registry.Keys;
    assert r.registry == st.registry;
    assert r.inputs == st.inputs;
  }

  /** Attaching a list, repetitions allowed, keeps every existing entry, and ends
      with each listed input registered unless it carried the widget marker
      beforehand or its construction failed. */
  lemma {:induction false} AttachAllCovers(st: Snapshot, fs: seq<FieldId>, build: FieldId -> Option<Handle>, maskPlugin: bool, marks: bool)
    requires forall i :: 0 <= i < |fs| ==> fs[i] in st.inputs
    ensures var r := AttachAll(st, fs, build, maskPlugin, marks);
            && (forall f :: f in st.registry ==> f in r.registry && r.registry[f] == st.registry[f])
            && (forall f :: f in st.inputs && f !in r.registry ==> r.inputs[f].widgetMarker == st.inputs[f].widgetMarker)
            && (forall i :: 0 <= i < |fs| ==> fs[i] in r.registry || st.inputs[fs[i]].widgetMarker || build(fs[i]).None?)
    decreases |fs|
  {
    if fs != [] {
      var init := fs[..|fs| - 1];
      AttachAllCovers(st, init, build, maskPlugin, marks);
      forall i | 0 <= i < |fs| - 1 ensures fs[i] == init[i] { }
    }
  }

  // ---------------------------------------------------------------- observers

  /** A node of a batch of DOM additions: whether it is an element, whether it is
      an `.elementor-popup-modal`, and its telephone-input descendants in document
      order (`node.querySelectorAll('input[type="tel"]')`). */
  datatype AddedNode = AddedNode(isElement: bool, isPopupModal: bool, telInputs: seq<FieldId>)

  /** A mutation record: whether its type is `childList`, and its added nodes. */
  datatype MutationRecord = MutationRecord(childList: bool, addedNodes: seq<AddedNode>)

  /** The added nodes of a batch, record after record. */
  function Added(ms: seq<MutationRecord>): seq<AddedNode>
    decreases |ms|
  {
    if ms == [] then [] else Added(ms[..|ms| - 1]) + ms[|ms| - 1].addedNodes
  }

  /** Every telephone input below an added node is an input of the document `doc`. */
  predicate NodesIn(nodes: seq<AddedNode>, doc: set<FieldId>) {
    forall k, j :: 0 <= k < |nodes| && 0 <= j < |nodes[k].telInputs| ==> nodes[k].telInputs[j] in doc
  }

  /** The inputs the popup observer attaches, in the order it attaches them: the
      telephone descendants of each added element in turn. */
  function TelFields(nodes: seq<AddedNode>, doc: set<FieldId>): (r: seq<FieldId>)
    requires NodesIn(nodes, doc)
    ensures forall i :: 0 <= i < |r| ==> r[i] in doc
    decreases |nodes|
  {
    if nodes == [] then []
    else
      var n := nodes[|nodes| - 1];
      TelFields(nodes[..|nodes| - 1], doc) + (if n.isElement then n.telInputs else [])
  }

  /** The added popup modals, each of which gets a delayed `handlePopupOpen`. */
  function PopupModals(nodes: seq<AddedNode>): (r: seq<AddedNode>)
    ensures forall i :: 0 <= i < |r| ==> r[i].isElement && r[i].isPopupModal
    decreases |nodes|
  {
    if nodes == [] then []
    else
      var n := nodes[|nodes| - 1];
      PopupModals(nodes[..|nodes| - 1]) + (if n.isElement && n.isPopupModal then [n] else [])
  }

  /** What makes the dynamic-content observer schedule a re-scan: an added element
      with a telephone descendant, or an added popup modal. */
  predicate Triggers(n: AddedNode) {
    n.isElement && (n.telInputs != [] || n.isPopupModal)
  }

  /** Some `childList` record of the batch added a node that triggers a re-scan. */
  predicate RescanWanted(ms: seq<MutationRecord>) {
    exists i, j :: 0 <= i < |ms| && 0 <= j < |ms[i].addedNodes| && ms[i].childList && Triggers(ms[i].addedNodes[j])
  }

  /** The dynamic-content observer's callback (`handleDynamicContent`): whether the
      batch makes it schedule `initPhoneFields` 200 ms later. */
  method ShouldRescan(ms: seq<MutationRecord>) returns (rescan: bool)
    ensures rescan == RescanWanted(ms)
  {
    rescan := false;
    for i := 0 to |ms|
      invariant rescan <==> exists i', j :: 0 <= i' < i && 0 <= j < |ms[i'].addedNodes| && ms[i'].childList && Triggers(ms[i'].addedNodes[j])
    {
      if ms[i].childList {
        var nodes := ms[i].addedNodes;
        for j := 0 to |nodes|
          invariant rescan <==> (exists i', j' :: 0 <= i' < i && 0 <= j' < |ms[i'].addedNodes| && ms[i'].childList && Triggers(ms[i'].addedNodes[j']))
                                || exists j' :: 0 <= j' < j && Triggers(nodes[j'])
        {
          var node := nodes[j];
          if node.isElement {
            if node.telInputs != [] {
              rescan := true;
            }
            if node.isPopupModal {
              rescan := true;
            }
          }
        }
      }
    }
  }

  /** A node of the flattened batch is a node of one of its records. */
  lemma {:induction false} AddedAt(ms: seq<MutationRecord>, n: AddedNode)
    ensures n in Added(ms) <==> exists i :: 0 <= i < |ms| && n in ms[i].addedNodes
    decreases |ms|
  {
    if ms != [] {
      var init := ms[..|ms| - 1];
      AddedAt(init, n);
      if n in Added(init) {
        var i :| 0 <= i < |init| && n in init[i].addedNodes;
        assert ms[i] == init[i];
      }
      if exists i :: 0 <= i < |ms| && n in ms[i].addedNodes {
        var i :| 0 <= i < |ms| && n in ms[i].addedNodes;
        if i < |ms| - 1 { assert init[i] == ms[i]; }
      }
    }
  }

  /** The flattened nodes trigger a re-scan exactly when some of them is an
      element with telephone descendants or a popup modal, i.e. exactly when the
      popup observer attaches an input or schedules a popup hand-off. */
  lemma {:induction false} TriggersIffObserved(nodes: seq<AddedNode>, doc: set<FieldId>)
    requires NodesIn(nodes, doc)
    ensures (exists k :: 0 <= k < |nodes| && Triggers(nodes[k])) <==> TelFields(nodes, doc) != [] || PopupModals(nodes) != []
    decreases |nodes|
  {
    if nodes != [] {
      var init := nodes[..|nodes| - 1];
      TriggersIffObserved(init, doc);
      if exists k :: 0 <= k < |init| && Triggers(init[k]) {
        var k :| 0 <= k < |init| && Triggers(init[k]);
        assert nodes[k] == init[k];
      }
      if exists k :: 0 <= k < |nodes| && Triggers(nodes[k]) {
        var k :| 0 <= k < |nodes| && Triggers(nodes[k]);
        if k < |nodes| - 1 { assert init[k] == nodes[k]; }
      }
    }
  }

  /** Both observers watch `childList` changes only, so on their records the
      dynamic-content observer schedules a re-scan exactly when the popup
      observer attaches some input or hands off some popup. */
  lemma RescanIffPopupObserverActs(ms: seq<MutationRecord>, doc: set<FieldId>)
    requires forall i :: 0 <= i < |ms| ==> ms[i].childList
    requires NodesIn(Added(ms), doc)
    ensures RescanWanted(ms) <==> TelFields(Added(ms), doc) != [] || PopupModals(Added(ms)) != []
  {
    var nodes := Added(ms);
    TriggersIffObserved(nodes, doc);
    assert RescanWanted(ms) ==> exists k :: 0 <= k < |nodes| && Triggers(nodes[k]) by {
      if RescanWanted(ms) {
        var i, j :| 0 <= i < |ms| && 0 <= j < |ms[i].addedNodes| && ms[i].childList && Triggers(ms[i].addedNodes[j]);
        var n := ms[i].addedNodes[j];
        AddedAt(ms, n);
        var k :| 0 <= k < |nodes| && nodes[k] == n;
        assert Triggers(nodes[k]);
      }
    }
    assert (exists k :: 0 <= k < |nodes| && Triggers(nodes[k])) ==> RescanWanted(ms) by {
      if exists k :: 0 <= k < |nodes| && Triggers(nodes[k]) {
        var k :| 0 <= k < |nodes| && Triggers(nodes[k]);
        var n := nodes[k];
        AddedAt(ms, n);
        var i :| 0 <= i < |ms| && n in ms[i].addedNodes;
        var j :| 0 <= j < |ms[i].addedNodes| && ms[i].addedNodes[j] == n;
        assert ms[i].childList && Triggers(ms[i].addedNodes[j]);
      }
    }
  }

  /** The element a field's validation state is shown on. */
  class Wrapper {
    var error: bool              // class `iti--error`
    var success: bool            // class `iti--success`
    var messages: seq<string>    // texts of the `.ddi-phone-error` children, in order

    function State(): Container
      reads this
    {
      Container(error, success, messages)
    }
  }

  class Controller {
    var phoneFields: map<FieldId, Handle>
    var inputs: map<FieldId, Input>
    var order: seq<FieldId>                  // the inputs in document order
    var disposed: set<Handle>                // handles whose `destroy` has run
    var popupObserverConnected: bool         // the observer `destroy` disconnects
    var contentObserverConnected: bool       // the dynamic-content observer, never disconnected
    const maskPlugin: bool                   // `typeof $.fn.mask !== 'undefined'`
    const widgetMarksInput: bool             // the widget adds `iti__tel-input` to its input

    ghost predicate Valid()
      reads this
    {
      Coherent(phoneFields, inputs, order)
    }

    /** `new DDIPhoneField()`: scans the document, then starts both observers. */
    constructor (inputs: map<FieldId, Input>, order: seq<FieldId>,
                 maskPlugin: bool, widgetMarksInput: bool, build: FieldId -> Option<Handle>)
      requires Coherent(map[], inputs, order)
      ensures Valid()
      ensures this.order == order && disposed == {}
      ensures popupObserverConnected && contentObserverConnected
      ensures this.maskPlugin == maskPlugin && this.widgetMarksInput == widgetMarksInput
      ensures Snapshot(phoneFields, this.inputs, {})
              == AttachAll(Snapshot(map[], inputs, {}), Unmarked(order, inputs), build, maskPlugin, widgetMarksInput)
    {
      this.phoneFields := map[];
      this.inputs := inputs;
      this.order := order;
      this.disposed := {};
      this.maskPlugin := maskPlugin;
      this.widgetMarksInput := widgetMarksInput;
      this.contentObserverConnected := true;
      this.popupObserverConnected := true;
      new;
      InitPhoneFields(build);
    }

    /** `getPhoneField(element)`: the widget registered for `f`, if any. */
    function GetPhoneField(f: FieldId): (r: Option<Handle>)
      reads this
      ensures r.Some? <==> f in phoneFields
      ensures r.Some? ==> r.value == phoneFields[f]
    {
      if f in phoneFields then Some(phoneFields[f]) else None
    }

    predicate IsInPopup(f: FieldId)
      reads this
      requires f in inputs
    {
      inputs[f].inPopup
    }

    /** `initSinglePhoneField(field)` where the widget construction produced `built`
        (`None`: it threw, and the exception was caught). The steps of `applyMask`,
        `addValidation` and `handlePopupField` are applied to the input in turn. */
    method InitSinglePhoneField(f: FieldId, built: Option<Handle>)
      requires Valid() && f in inputs
      modifies this`phoneFields, this`inputs
      ensures Valid()
      ensures inputs == old(inputs)[f := InputAfterAttach(old(inputs[f]), f in old(phoneFields), built, maskPlugin, widgetMarksInput)]
      ensures phoneFields == RegistryAfterAttach(old(phoneFields), f, old(inputs[f]), built)
    {
      var inp := inputs[f];
      if inp.widgetMarker || f in phoneFields {
        return;
      }
      if maskPlugin {
        inp := inp.(mask := Unmasked);
      }
      var isPopup := IsInPopup(f);
      if built.Some? {
        var h := built.value;
        inp := inp.(widgetMarker := widgetMarksInput);
        phoneFields := phoneFields[f := h];
        if !isPopup && maskPlugin {
          inp := inp.(mask := Masked(BrazilLandlineMask));     // applyMask
        }
        inp := inp.(listeners := inp.listeners + [h]);         // addValidation
        if isPopup {
          inp := inp.(popupMarker := true, hasPattern := false);  // handlePopupField
        }
        assert inp == Attached(inputs[f], h, maskPlugin, widgetMarksInput);
      }
      inputs := inputs[f := inp];
    }

    /** The `forEach` that calls `initSinglePhoneField` on each of `fs` in turn;
        `build(f)` is what constructing the widget for `f` produces. A failure on
        one input does not stop the loop. */
    method AttachEach(fs: seq<FieldId>, build: FieldId -> Option<Handle>)
      requires Valid() && forall i :: 0 <= i < |fs| ==> fs[i] in inputs
      modifies this`phoneFields, this`inputs
      ensures Valid()
      ensures Snapshot(phoneFields, inputs, {}) == AttachAll(Snapshot(old(phoneFields), old(inputs), {}), fs, build, maskPlugin, widgetMarksInput)
    {
      ghost var st := Snapshot(phoneFields, inputs, {});
      for k := 0 to |fs|
        invariant Valid() && inputs.Keys == st.inputs.Keys
        invariant Snapshot(phoneFields, inputs, {}) == AttachAll(st, fs[..k], build, maskPlugin, widgetMarksInput)
      {
        assert fs[..k + 1][..k] == fs[..k];
        InitSinglePhoneField(fs[k], build(fs[k]));
      }
      assert fs[..|fs|] == fs;
    }

    /** `initPhoneFields`: attach every input that had no widget marker when the
        scan began, in document order. */
    method InitPhoneFields(build: FieldId -> Option<Handle>)
      requires Valid()
      modifies this`phoneFields, this`inputs
      ensures Valid()
      ensures Snapshot(phoneFields, inputs, {})
              == AttachAll(Snapshot(old(phoneFields), old(inputs), {}), Unmarked(order, old(inputs)), build, maskPlugin, widgetMarksInput)
    {
      var pending := Unmarked(order, inputs);
      AttachEach(pending, build);
    }

    /** The popup observer's callback (`initPopupObserver`) on a batch of records:
        every added popup modal is handed to `handlePopupOpen`, whose delayed part
        is `HandlePopupOpen` (`popups` lists them), and every telephone input below
        an added element is attached at once. */
    method OnPopupMutations(ms: seq<MutationRecord>, build: FieldId -> Option<Handle>) returns (popups: seq<AddedNode>)
      requires Valid() && NodesIn(Added(ms), inputs.Keys)
      modifies this`phoneFields, this`inputs
      ensures Valid()
      ensures popups == PopupModals(Added(ms))
      ensures Snapshot(phoneFields, inputs, {})
              == AttachAll(Snapshot(old(phoneFields), old(inputs), {}), TelFields(Added(ms), old(inputs).Keys), build, maskPlugin, widgetMarksInput)
    {
      var nodes := Added(ms);
      ghost var st := Snapshot(phoneFields, inputs, {});
      popups := [];
      for k := 0 to |nodes|
        invariant Valid() && inputs.Keys == st.inputs.Keys
        invariant popups == PopupModals(nodes[..k])
        invariant Snapshot(phoneFields, inputs, {}) == AttachAll(st, TelFields(nodes[..k], st.inputs.Keys), build, maskPlugin, widgetMarksInput)
      {
        var node := nodes[k];
        assert nodes[..k + 1][..k] == nodes[..k];
        ghost var before := TelFields(nodes[..k], st.inputs.Keys);
        assert TelFields(nodes[..k + 1], st.inputs.Keys) == before + if node.isElement then node.telInputs else [];
        if node.isElement {
          if node.isPopupModal {
            popups := popups + [node];
          }
          AttachAllAppend(st, before, node.telInputs, build, maskPlugin, widgetMarksInput);
          AttachEach(node.telInputs, build);
        } else {
          assert before + [] == before;
        }
      }
      assert nodes[..|nodes|] == nodes;
    }

    /** The key-press handler of a Brazilian mask. */
    method OnKeyPress(f: FieldId)
      requires Valid() && f in inputs
      modifies this`inputs
      ensures Valid()
      ensures inputs == old(inputs)[f := AfterKeyPress(old(inputs[f]))]
    {
      var inp := inputs[f];
      if HasBrazilHandler(inp.mask) {
        var next := inp.(mask := Masked(BrazilMaskFor(inp.value)));
        inputs := inputs[f := next];
      }
    }

    /** `updateMaskForCountry(field, countryData)`. */
    method UpdateMaskForCountry(f: FieldId, iso2: string)
      requires Valid() && f in inputs
      modifies this`inputs
      ensures Valid()
      ensures inputs == if old(inputs[f]).inPopup || !maskPlugin then old(inputs)
                        else old(inputs)[f := old(inputs[f]).(mask := Masked(CountryMask(iso2)))]
    {
      if IsInPopup(f) {
        return;
      }
      if maskPlugin {
        var next := inputs[f].(mask := Masked(CountryMask(iso2)));
        inputs := inputs[f := next];
      }
    }

    /** The document's `countrychange` listener for an event on `f`, where the
        widget reports country `iso2`. Unregistered and popup fields keep their mask. */
    method OnCountryChange(f: FieldId, iso2: string)
      requires Valid() && f in inputs
      modifies this`inputs
      ensures Valid()
      ensures f !in phoneFields || old(inputs[f]).inPopup || !maskPlugin ==> inputs == old(inputs)
      ensures f in phoneFields && !old(inputs[f]).inPopup && maskPlugin ==>
                inputs == old(inputs)[f := old(inputs[f]).(mask := Masked(CountryMask(iso2)))]
    {
      if f in phoneFields && !IsInPopup(f) {
        UpdateMaskForCountry(f, iso2);
      }
    }

    /** `showError(field, message)`. */
    method ShowError(f: FieldId, msg: string)
      requires f in inputs
      modifies inputs[f].container
      ensures inputs[f].container.State() == WithError(old(inputs[f].container.State()), msg)
    {
      var c := inputs[f].container;
      c.error := true;
      if c.messages == [] {
        c.messages := [msg];
      } else {
        c.messages := c.messages[0 := msg];
      }
    }

    /** `showSuccess(field)`. */
    method ShowSuccess(f: FieldId)
      requires f in inputs
      modifies inputs[f].container
      ensures inputs[f].container.State() == WithSuccess(old(inputs[f].container.State()))
    {
      var c := inputs[f].container;
      c.success := true;
      c.error := false;
      if c.messages != [] {
        c.messages := c.messages[1..];
      }
    }

    /** `clearValidation(field)`. */
    method ClearValidation(f: FieldId)
      requires f in inputs
      modifies inputs[f].container
      ensures inputs[f].container.State() == Cleared(old(inputs[f].container.State()))
    {
      var c := inputs[f].container;
      c.error := false;
      c.success := false;
      if c.messages != [] {
        c.messages := c.messages[1..];
      }
    }

    /** `validateField(field, phoneNumber)` with the widget `h` and its answer
        `check` to `isValidNumber()`; true when the field may be submitted. */
    method ValidateField(f: FieldId, h: Handle, check: NumberCheck) returns (ok: bool)
      requires f in inputs
      modifies inputs[f].container
      ensures var inp := inputs[f];
              var v := FieldVerdict(inp.inPopup, JsTrim(inp.value), h, check);
              ok == !v.Rejected?
              && inp.container.State() == AfterValidation(old(inp.container.State()), inp.inPopup, v)
    {
      var value := JsTrim(inputs[f].value);
      if IsInPopup(f) {
        if value != "" && !Matches(Popup, value) {
          ShowError(f, CharacterMessage);
          return false;
        }
        if value != "" {
          ShowSuccess(f);
        }
        return true;
      }
      ClearValidation(f);
      if value != "" && !Matches(Regular, value) {
        ShowError(f, CharacterMessage);
        return false;
      }
      if h.canCheckNumber && DigitCount(value) >= 10 {
        if check == Invalid && value != "" {
          ShowError(f, NumberMessage);
          return false;
        }
        // Valid, or an exception the handler swallows.
      }
      if value != "" {
        ShowSuccess(f);
      }
      return true;
    }

    /** The `input` listener: clear the validation state while the user types. */
    method OnInput(f: FieldId)
      requires f in inputs
      modifies inputs[f].container
      ensures inputs[f].container.State() == Cleared(old(inputs[f].container.State()))
    {
      ClearValidation(f);
    }

    /** The form's `submit` listener bound for `f` with widget `h`: cancel when the
        field is invalid, otherwise overwrite the value with the widget's E.164
        number `e164` when that is a non-empty string (`""` also stands for a
        `getNumber` that fails). */
    method OnSubmit(f: FieldId, h: Handle, check: NumberCheck, e164: string) returns (cancel: bool)
      requires Valid() && f in inputs && h in inputs[f].listeners
      modifies this`inputs, inputs[f].container
      ensures Valid()
      ensures var inp := old(inputs[f]);
              var v := FieldVerdict(inp.inPopup, JsTrim(inp.value), h, check);
              cancel == v.Rejected?
              && inp.container.State() == AfterValidation(old(inp.container.State()), inp.inPopup, v)
              && inputs == if cancel || !h.canGetNumber || e164 == "" then old(inputs)
                           else old(inputs)[f := inp.(value := e164)]
    {
      var ok := ValidateField(f, h, check);
      if !ok {
        return true;
      }
      if h.canGetNumber && e164 != "" {
        inputs := inputs[f := inputs[f].(value := e164)];
      }
      return false;
    }

    /** A `blur` on `f`: the blur listener of every set an attach added runs
        `validateField` with the widget it captured, destroyed or not, in the order
        the sets were added; `checks[i]` is the `i`-th widget's answer. */
    method OnBlurEvent(f: FieldId, checks: seq<NumberCheck>)
      requires f in inputs && |checks| == |inputs[f].listeners|
      modifies inputs[f].container
      ensures inputs[f].container.State()
              == BlurSets(inputs[f].inPopup, JsTrim(inputs[f].value), old(inputs[f].container.State()), inputs[f].listeners, checks)
    {
      var hs := inputs[f].listeners;
      for k := 0 to |hs|
        invariant inputs[f].container.State()
                  == BlurSets(inputs[f].inPopup, JsTrim(inputs[f].value), old(inputs[f].container.State()), hs[..k], checks[..k])
      {
        var ok := ValidateField(f, hs[k], checks[k]);
        BlurSetsExtend(inputs[f].inPopup, JsTrim(inputs[f].value), old(inputs[f].container.State()), hs, checks, k);
      }
      assert hs[..|hs|] == hs && checks[..|checks|] == checks;
    }

    /** A `submit` of the form around `f`: the submit listener of every set runs in
        turn, with the `i`-th widget answering `checks[i]` and giving the number
        `e164s[i]`; the submit is cancelled when any of them cancels it. */
    method OnSubmitEvent(f: FieldId, checks: seq<NumberCheck>, e164s: seq<string>) returns (cancel: bool)
      requires Valid() && f in inputs
      requires |checks| == |inputs[f].listeners| && |e164s| == |inputs[f].listeners|
      modifies this`inputs, inputs[f].container
      ensures Valid()
      ensures var inp := old(inputs[f]);
              var r := SubmitSets(inp.inPopup, Submission(false, inp.value, old(inp.container.State())),
                                  inp.listeners, checks, e164s);
              cancel == r.cancel && inputs == old(inputs)[f := inp.(value := r.value)]
              && inp.container.State() == r.container
    {
      var hs := inputs[f].listeners;
      ghost var inp := inputs[f];
      ghost var start := Submission(false, inp.value, inp.container.State());
      cancel := false;
      for k := 0 to |hs|
        invariant Valid() && f in inputs
        invariant inputs == old(inputs)[f := inp.(value := inputs[f].value)]
        invariant Submission(cancel, inputs[f].value, inp.container.State())
                  == SubmitSets(inp.inPopup, start, hs[..k], checks[..k], e164s[..k])
      {
        ghost var before := inputs;
        ghost var pre := Submission(cancel, inputs[f].value, inp.container.State());
        var c := OnSubmit(f, hs[k], checks[k], e164s[k]);
        OverwriteTwice(old(inputs), f, before[f], inputs[f]);
        cancel := cancel || c;
        SubmitStepParts(inp.inPopup, pre, hs[k], checks[k], e164s[k]);
        SubmitSetsExtend(inp.inPopup, start, hs, checks, e164s, k);
      }
      assert hs[..|hs|] == hs && checks[..|checks|] == checks && e164s[..|e164s|] == e164s;
    }

    /** `forceReinitPopupField(field)`: dispose and forget the field's widget, and
        remove its widget classes and mask; the re-attach 100 ms later is a
        separate `InitSinglePhoneField`. */
    method ForceReinitPopupField(f: FieldId)
      requires Valid() && f in inputs
      modifies this`phoneFields, this`inputs, this`disposed
      ensures Valid()
      ensures phoneFields == old(phoneFields) - {f}
      ensures disposed == old(disposed) + Destroyable(old(phoneFields), {f})
      ensures inputs == old(inputs)[f := Detached(old(inputs[f]), maskPlugin)]
    {
      if f in phoneFields {
        var h := phoneFields[f];
        if h.canDestroy {
          disposed := disposed + {h};
        }
        phoneFields := phoneFields - {f};
      }
      assert Destroyable(old(phoneFields), {f}) ==
             if f in old(phoneFields) && old(phoneFields)[f].canDestroy then {old(phoneFields)[f]} else {};
      var inp := inputs[f].(widgetMarker := false, popupMarker := false);
      if maskPlugin {
        inp := inp.(mask := Unmasked);
      }
      inputs := inputs[f := inp];
    }

    /** `handlePopupOpen(popup)`, the part that runs after the settle delay: for
        every telephone input of the popup, remove `pattern` and force its
        re-initialisation. */
    method HandlePopupOpen(popupFields: seq<FieldId>)
      requires Valid() && forall i :: 0 <= i < |popupFields| ==> popupFields[i] in inputs
      modifies this`phoneFields, this`inputs, this`disposed
      ensures Valid()
      ensures Snapshot(phoneFields, inputs, disposed)
              == ReinitAll(Snapshot(old(phoneFields), old(inputs), old(disposed)), popupFields, maskPlugin)
    {
      ghost var st := Snapshot(phoneFields, inputs, disposed);
      for k := 0 to |popupFields|
        invariant Valid() && inputs.Keys == st.inputs.Keys
        invariant Snapshot(phoneFields, inputs, disposed) == ReinitAll(st, popupFields[..k], maskPlugin)
      {
        var f := popupFields[k];
        assert popupFields[..k + 1][..k] == popupFields[..k];
        ghost var before := inputs;
        inputs := inputs[f := inputs[f].(hasPattern := false)];   // removeAttribute('pattern')
        ghost var mid := inputs;
        ForceReinitPopupField(f);
        OverwriteTwice(before, f, mid[f], inputs[f]);
      }
      assert popupFields[..|popupFields|] == popupFields;
    }

    /** The `forEach` that calls `destroy` on every registered widget that has it. */
    method DisposeAll()
      modifies this`disposed
      ensures disposed == old(disposed) + Destroyable(phoneFields, phoneFields.Keys)
    {
      var todo := phoneFields.Keys;
      while todo != {}
        invariant todo <= phoneFields.Keys
        invariant disposed == old(disposed) + Destroyable(phoneFields, phoneFields.Keys - todo)
        decreases todo
      {
        var f :| f in todo;
        if phoneFields[f].canDestroy {
          disposed := disposed + {phoneFields[f]};
        }
        assert phoneFields.Keys - (todo - {f}) == (phoneFields.Keys - todo) + {f};
        todo := todo - {f};
      }
    }

    /** `forceReinit()`: dispose and forget every entry, then unmask every telephone
        input and remove its widget classes. Without the mask plugin the unguarded
        `unmask` call throws after the registry is cleared, so the classes stay and
        no re-scan is scheduled; `rescan` says whether the re-scan 100 ms later
        (a separate `InitPhoneFields`) is scheduled. */
    method ForceReinit() returns (rescan: bool)
      requires Valid()
      modifies this`phoneFields, this`inputs, this`disposed
      ensures Valid()
      ensures phoneFields == map[]
      ensures disposed == old(disposed) + Destroyable(old(phoneFields), old(phoneFields).Keys)
      ensures rescan == maskPlugin
      ensures inputs == if !maskPlugin then old(inputs)
                        else map f | f in old(inputs) :: old(inputs)[f].(mask := Unmasked, widgetMarker := false, popupMarker := false)
    {
      DisposeAll();
      phoneFields := map[];
      if !maskPlugin {
        return false;
      }
      inputs := map f | f in inputs :: inputs[f].(mask := Unmasked, widgetMarker := false, popupMarker := false);
      return true;
    }

    /** `destroy()`: dispose and forget every entry and disconnect the popup
        observer. The dynamic-content observer is not disconnected. */
    method Destroy()
      requires Valid()
      modifies this`phoneFields, this`disposed, this`popupObserverConnected
      ensures Valid()
      ensures phoneFields == map[]
      ensures disposed == old(disposed) + Destroyable(old(phoneFields), old(phoneFields).Keys)
      ensures !popupObserverConnected && contentObserverConnected == old(contentObserverConnected)
    {
      DisposeAll();
      phoneFields := map[];
      popupObserverConnected := false;
    }

    /** `cleanupPopupFields()`: dispose and delete exactly the entries of inputs
        inside a popup. */
    method CleanupPopupFields()
      requires Valid()
      modifies this`phoneFields, this`disposed
      ensures Valid()
      ensures phoneFields == Kept(old(phoneFields), inputs, old(phoneFields).Keys)
      ensures disposed == old(disposed) + Destroyable(old(phoneFields), Gone(old(phoneFields), inputs, old(phoneFields).Keys))
    {
      var todo := phoneFields.Keys;
      while todo != {}
        invariant todo <= old(phoneFields).Keys
        invariant phoneFields == Kept(old(phoneFields), inputs, old(phoneFields).Keys - todo)
        invariant disposed == old(disposed) + Destroyable(old(phoneFields), Gone(old(phoneFields), inputs, old(phoneFields).Keys - todo))
        decreases todo
      {
        var f :| f in todo;
        ghost var done := old(phoneFields).Keys - todo;
        assert old(phoneFields).Keys - (todo - {f}) == done + {f};
        CleanupStep(old(phoneFields), inputs, done, f);
        if IsInPopup(f) {
          if phoneFields[f].canDestroy {
            disposed := disposed + {phoneFields[f]};
          }
          phoneFields := phoneFields - {f};
        }
        todo := todo - {f};
      }
    }
  }

  /** The entries clean-up keeps once it has visited the keys `done`: all but those
      of inputs inside a popup. */
  ghost function Kept(m: map<FieldId, Handle>, inputs: map<FieldId, Input>, done: set<FieldId>): map<FieldId, Handle> {
    map g | g in m && !(g in done && g in inputs && inputs[g].inPopup) :: m[g]
  }

  /** The entries clean-up has deleted once it has visited the keys `done`. */
  ghost function Gone(m: map<FieldId, Handle>, inputs: map<FieldId, Input>, done: set<FieldId>): set<FieldId> {
    set g | g in done && g in m && g in inputs && inputs[g].inPopup
  }

  /** Visiting one more key deletes it exactly when its input is inside a popup. */
  lemma CleanupStep(m: map<FieldId, Handle>, inputs: map<FieldId, Input>, done: set<FieldId>, f: FieldId)
    requires f in m && f in inputs && f !in done
    ensures Kept(m, inputs, done + {f}) == if inputs[f].inPopup then Kept(m, inputs, done) - {f} else Kept(m, inputs, done)
    ensures Destroyable(m, Gone(m, inputs, done + {f}))
            == Destroyable(m, Gone(m, inputs, done)) + (if inputs[f].inPopup && m[f].canDestroy then {m[f]} else {})
  {
    if inputs[f].inPopup {
      assert Gone(m, inputs, done + {f}) == Gone(m, inputs, done) + {f};
    } else {
      assert Gone(m, inputs, done + {f}) == Gone(m, inputs, done);
    }
  }

  /** Clean-up keeps every entry of an input outside popups exactly as it was, and
      deletes every entry of an input inside one. */
  lemma CleanupKeepsRegularEntries(m: map<FieldId, Handle>, inputs: map<FieldId, Input>)
    requires m.Keys <= inputs.Keys
    ensures forall f :: f in m ==> (f in Kept(m, inputs, m.Keys) <==> !inputs[f].inPopup)
    ensures forall f :: f in Kept(m, inputs, m.Keys) ==> Kept(m, inputs, m.Keys)[f] == m[f]
  {
  }
}
