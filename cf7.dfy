/** The form-plugin integration: the markup attributes of a `tel` form tag and
    the server-side validation of the value submitted for it.

    The form plugin's own helpers (`wpcf7_get_validation_error`,
    `wpcf7_form_controls_class`, the tag's option getters, `wpcf7_get_hangover`,
    `sanitize_html_class`) are uninterpreted: their results are given by a
    `FormTagApi` value. */
module ContactForm {
  import opened Options
  import opened Text
  import opened PhonePatterns

  /** A form tag: its name, its type (`tel` or `tel*`), whether it is required,
      its options (`readonly`, `placeholder`, `watermark`, ...) and its values. */
  datatype Tag = Tag(name: string, tagType: string, required: bool, options: set<string>, values: seq<string>)

  /** The plugin helpers the tag handler calls. `None` stands for `false`. */
  datatype FormTagApi = FormTagApi(
    validationError: string -> string,    // wpcf7_get_validation_error(name)
    controlsClass: string -> string,      // wpcf7_form_controls_class(type)
    classOption: string -> string,        // $tag->get_class_option(class)
    idOption: Option<string>,             // $tag->get_id_option()
    tabindex: Option<string>,             // $tag->get_option('tabindex', 'int', true)
    defaultOption: string -> string,      // $tag->get_default_option(value)
    hangover: (string, string) -> string, // wpcf7_get_hangover(name, value)
    sanitizeClass: string -> string)      // sanitize_html_class(name)

  /** The handler's output: nothing, or the wrapper class, the input's attributes
      (before `wpcf7_format_atts`) and the error text shown after the input. */
  datatype Rendered = NoMarkup | Markup(wrapClass: string, atts: InputAtts, error: string)

  /** The attributes the handler sets on the input. An optional attribute the
      handler does not set is `None` (or `false` for the two flag attributes);
      `id` and `tabindex` are `None` where the tag getters return `false`. */
  datatype InputAtts = InputAtts(
    cls: string, id: Option<string>, tabindex: Option<string>,
    readonly: bool,                // readonly="readonly"
    ariaRequired: bool,            // aria-required="true"
    ariaInvalid: string,
    placeholder: Option<string>,
    value: string, inputType: string, name: string, pattern: string, title: string)

  /** The `pattern` attribute (the PHP single-quoted literal, after unescaping). */
  const PatternAttribute: string := "[\\+]?[0-9\\s\\(\\)\\-\\+\\.]+"
  const Title: string := "Only numbers and phone characters (#, -, *, etc) are accepted."
  const FormatMessage: string := "O campo aceita apenas números e caracteres de telefone (#, -, *, etc)."
  const NotValidClass: string := " wpcf7-not-valid"

  /** The placeholder text comes from the tag's value. */
  predicate HasPlaceholder(tag: Tag) {
    "placeholder" in tag.options || "watermark" in tag.options
  }

  /** `(string) reset($tag->values)`: the first value, or `""` when there is none. */
  function FirstValue(tag: Tag): string {
    if tag.values == [] then "" else tag.values[0]
  }

  /** The control class: the plugin's class for the tag type, followed by the
      not-valid class exactly when the field has a (truthy) validation error. */
  function ControlClass(base: string, error: string): (c: string)
    ensures !PhpEmpty(error) <==> c == base + NotValidClass
    ensures PhpEmpty(error) <==> c == base
  {
    if PhpEmpty(error) then base else base + NotValidClass
  }

  /** `phone_form_tag_handler($tag)`: no markup for a tag without a name;
      otherwise the wrapper class, the input's attributes and the error text. */
  function RenderTag(tag: Tag, api: FormTagApi): (r: Rendered)
    ensures r.NoMarkup? <==> PhpEmpty(tag.name)
    ensures r.Markup? ==>
              var err := api.validationError(tag.name);
              var a := r.atts;
              && r.wrapClass == api.sanitizeClass(tag.name) && r.error == err
              && a.cls == api.classOption(ControlClass(api.controlsClass(tag.tagType), err))
              && (a.ariaInvalid == "true" <==> !PhpEmpty(err)) && (a.ariaInvalid == "false" <==> PhpEmpty(err))
              && a.id == api.idOption && a.tabindex == api.tabindex
              && (a.readonly <==> "readonly" in tag.options) && (a.ariaRequired <==> tag.required)
              && (a.placeholder.Some? <==> HasPlaceholder(tag))
              && (a.placeholder.Some? ==> a.placeholder.value == FirstValue(tag))
              && a.value == api.hangover(tag.name, api.defaultOption(if HasPlaceholder(tag) then "" else FirstValue(tag)))
              && a.inputType == "tel" && a.name == tag.name && a.pattern == PatternAttribute && a.title == Title
  {
    if PhpEmpty(tag.name) then NoMarkup
    else
      var err := api.validationError(tag.name);
      var cls := api.controlsClass(tag.tagType) + (if PhpEmpty(err) then "" else NotValidClass);
      assert PhpEmpty(err) ==> cls == api.controlsClass(tag.tagType);
      var placeholder := if HasPlaceholder(tag) then Some(FirstValue(tag)) else None;
      var value := if HasPlaceholder(tag) then "" else FirstValue(tag);
      var atts := InputAtts(api.classOption(cls), api.idOption, api.tabindex,
                            "readonly" in tag.options, tag.required,
                            if PhpEmpty(err) then "false" else "true",
                            placeholder, api.hangover(tag.name, api.defaultOption(value)),
                            "tel", tag.name, PatternAttribute, Title);
      Markup(api.sanitizeClass(tag.name), atts, err)
  }

  /** The rendered input is marked invalid by `aria-invalid` exactly when its
      control class carries the not-valid class, and both happen exactly when
      the field has a validation error. */
  lemma InvalidMarkingAgrees(tag: Tag, api: FormTagApi)
    requires !PhpEmpty(tag.name)
    ensures var r := RenderTag(tag, api);
            var base := api.controlsClass(tag.tagType);
            && r.Markup?
            && (r.atts.ariaInvalid == "true" <==> ControlClass(base, r.error) == base + NotValidClass)
            && (r.atts.ariaInvalid == "true" <==> !PhpEmpty(api.validationError(tag.name)))
  {
  }

  // ---------------------------------------------------------------- validation

  /** `is_valid_phone($phone)`: the server pattern matches. */
  predicate IsValidPhone(phone: string) {
    Matches(Server, phone)
  }

  /** The server check accepts exactly the non-empty strings made of digits,
      ASCII white space and the symbols `( ) - + . # * & =`. */
  lemma IsValidPhoneIff(phone: string)
    ensures IsValidPhone(phone) <==>
              phone != "" && forall i :: 0 <= i < |phone| ==>
                IsAsciiDigit(phone[i]) || IsPcreSpace(phone[i]) || phone[i] in "()-+.#*&="
  {
    PlusInClassMatches(Server, phone);
  }

  /** The value the server validates: the posted field, unslashed and trimmed,
      or `""` when the request has no such field. */
  function PostedValue(post: map<string, string>, name: string): string {
    if name in post then PhpTrim(StripSlashes(post[name])) else ""
  }

  /** WordPress slashes every request variable; the value validated is what the
      browser sent, trimmed. */
  lemma PostedValueUnslashes(post: map<string, string>, name: string, sent: string)
    requires name in post && post[name] == AddSlashes(sent)
    ensures PostedValue(post, name) == PhpTrim(sent)
  {
    StripSlashesOfAddSlashes(sent);
  }

  /** The invalidations `validate_phone_field` records, as (field name, message)
      pairs, for a value `value` of a field that is `required` or not. */
  function Invalidations(name: string, required: bool, value: string, requiredMessage: string): seq<(string, string)> {
    (if required && value == "" then [(name, requiredMessage)] else [])
    + (if value != "" && !IsValidPhone(value) then [(name, FormatMessage)] else [])
  }

  /** At most one invalidation is recorded: the required message for an empty
      required field, the format message for a non-empty value the server
      pattern refuses, and none otherwise. */
  lemma InvalidationCases(name: string, required: bool, value: string, requiredMessage: string)
    ensures var r := Invalidations(name, required, value, requiredMessage);
            && |r| <= 1
            && (r == [(name, requiredMessage)] <== required && value == "")
            && (r == [(name, FormatMessage)] <== value != "" && !IsValidPhone(value))
            && (r == [] <==> (value == "" && !required) || (value != "" && IsValidPhone(value)))
  {
  }

  /** A request without the field counts as an empty value: a required field is
      refused with the required message, an optional one passes. */
  lemma MissingFieldIsEmpty(post: map<string, string>, name: string, required: bool, requiredMessage: string)
    requires name !in post
    ensures Invalidations(name, required, PostedValue(post, name), requiredMessage)
            == if required then [(name, requiredMessage)] else []
  {
  }

  /** A value made only of trimmed characters is empty once trimmed. */
  lemma {:induction false} BlankValueIsEmpty(post: map<string, string>, name: string)
    requires name in post
    requires forall i :: 0 <= i < |StripSlashes(post[name])| ==> IsPhpTrimmed(StripSlashes(post[name])[i])
    ensures PostedValue(post, name) == ""
  {
    TrimWithShape(StripSlashes(post[name]), IsPhpTrimmed);
  }

  /** The plugin's validation result, of which the model keeps the recorded
      invalidations. */
  class ValidationResult {
    var invalidations: seq<(string, string)>

    constructor ()
      ensures invalidations == []
    {
      invalidations := [];
    }

    /** `$result->invalidate($tag, $message)`. */
    method Invalidate(name: string, message: string)
      modifies this
      ensures invalidations == old(invalidations) + [(name, message)]
    {
      invalidations := invalidations + [(name, message)];
    }
  }

  /** `validate_phone_field($result, $tag)` on the request fields `post`;
      `requiredMessage` is `wpcf7_get_message('invalid_required')`. */
  method ValidatePhoneField(result: ValidationResult, tag: Tag, post: map<string, string>, requiredMessage: string)
    modifies result
    ensures result.invalidations
            == old(result.invalidations) + Invalidations(tag.name, tag.required, PostedValue(post, tag.name), requiredMessage)
  {
    var value := if tag.name in post then PhpTrim(StripSlashes(post[tag.name])) else "";
    if tag.required && value == "" {
      result.Invalidate(tag.name, requiredMessage);
    }
    if value != "" && !IsValidPhone(value) {
      result.Invalidate(tag.name, FormatMessage);
    }
  }
}
