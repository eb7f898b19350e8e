/** The e-commerce integration: the filters that turn the store's billing,
    shipping, account and registration phone fields into telephone inputs the
    controller picks up, and its server-side phone check.

    A PHP array of form fields is a `map` from string keys to `Value`s; arrays
    are values in PHP, so each filter takes its argument by value, assigns into
    its own copy and returns it. */
module Checkout {
  import opened Text
  import opened PhonePatterns
  import ContactForm

  /** A PHP value as far as the filters see it: `null`, a string, a list of
      strings, an array of string attributes, a nested array, or any other
      scalar (booleans and numbers, told apart by `id`). */
  datatype Value =
    | Null
    | Text(s: string)
    | StrList(items: seq<string>)
    | StrMap(attributes: map<string, string>)
    | Arr(entries: map<string, Value>)
    | Scalar(id: int)

  type Fields = map<string, Value>

  /** The class list and custom attributes given to every phone field. */
  const PhoneClasses: seq<string> := ["form-row-wide", "ddi-phone-field"]
  const PhoneAttributes: map<string, string> := map["data-phone-field" := "true"]

  /** PHP `isset($fields[key])`: the key is present and not `null`. */
  predicate IsSet(fields: Fields, key: string) {
    key in fields && !fields[key].Null?
  }

  /** PHP `isset($fields[group][key])`: a string or scalar at `group` has no
      such offset. */
  predicate IsSetIn(fields: Fields, group: string, key: string) {
    group in fields && fields[group].Arr? && IsSet(fields[group].entries, key)
  }

  /** The store hands the filters field arrays: a phone entry that is set is
      itself an array, so the three assignments into it are array writes. */
  predicate Assignable(fields: Fields, key: string) {
    IsSet(fields, key) ==> fields[key].Arr?
  }

  predicate AssignableIn(fields: Fields, group: string, key: string) {
    IsSetIn(fields, group, key) ==> fields[group].entries[key].Arr?
  }

  /** A field's settings after the three assignments: `type` is `tel`, `class`
      and `custom_attributes` are replaced by the phone-field values, and every
      other setting is kept. */
  function Marked(field: Fields): (m: Fields)
    ensures m.Keys == field.Keys + {"type", "class", "custom_attributes"}
    ensures m["type"] == Text("tel") && m["class"] == StrList(PhoneClasses)
            && m["custom_attributes"] == StrMap(PhoneAttributes)
    ensures forall k :: k in field && k != "type" && k != "class" && k != "custom_attributes" ==> m[k] == field[k]
  {
    field["type" := Text("tel")]["class" := StrList(PhoneClasses)]["custom_attributes" := StrMap(PhoneAttributes)]
  }

  /** `fields` with the entry at `key` marked as a phone field when it is set. */
  function MarkAt(fields: Fields, key: string): (r: Fields)
    requires Assignable(fields, key)
    ensures r.Keys == fields.Keys
    ensures IsSet(fields, key) ==> r[key] == Arr(Marked(fields[key].entries))
    ensures forall k :: k in fields && (k != key || !IsSet(fields, key)) ==> r[k] == fields[k]
  {
    if IsSet(fields, key) then fields[key := Arr(Marked(fields[key].entries))] else fields
  }

  /** `fields` with the entry at `key` of the array at `group` marked when it
      is set. */
  function MarkIn(fields: Fields, group: string, key: string): (r: Fields)
    requires AssignableIn(fields, group, key)
    ensures r.Keys == fields.Keys
    ensures IsSetIn(fields, group, key) ==> r[group] == Arr(MarkAt(fields[group].entries, key))
    ensures forall g :: g in fields && (g != group || !IsSetIn(fields, group, key)) ==> r[g] == fields[g]
  {
    if IsSetIn(fields, group, key) then fields[group := Arr(MarkAt(fields[group].entries, key))] else fields
  }

  /** `modify_checkout_fields($fields)`. */
  method ModifyCheckoutFields(fields: Fields) returns (r: Fields)
    requires AssignableIn(fields, "billing", "billing_phone")
    requires AssignableIn(fields, "shipping", "shipping_phone")
    ensures AssignableIn(MarkIn(fields, "billing", "billing_phone"), "shipping", "shipping_phone")
    ensures r == MarkIn(MarkIn(fields, "billing", "billing_phone"), "shipping", "shipping_phone")
  {
    r := fields;
    if IsSetIn(r, "billing", "billing_phone") {
      var billing := r["billing"].entries;
      var phone := billing["billing_phone"].entries;
      phone := phone["type" := Text("tel")];
      phone := phone["class" := StrList(PhoneClasses)];
      phone := phone["custom_attributes" := StrMap(PhoneAttributes)];
      r := r["billing" := Arr(billing["billing_phone" := Arr(phone)])];
    }
    if IsSetIn(r, "shipping", "shipping_phone") {
      var shipping := r["shipping"].entries;
      var phone := shipping["shipping_phone"].entries;
      phone := phone["type" := Text("tel")];
      phone := phone["class" := StrList(PhoneClasses)];
      phone := phone["custom_attributes" := StrMap(PhoneAttributes)];
      r := r["shipping" := Arr(shipping["shipping_phone" := Arr(phone)])];
    }
  }

  /** `modify_account_fields($fields)`. */
  method ModifyAccountFields(fields: Fields) returns (r: Fields)
    requires Assignable(fields, "billing_phone")
    ensures r == MarkAt(fields, "billing_phone")
  {
    r := fields;
    if IsSet(r, "billing_phone") {
      var phone := r["billing_phone"].entries;
      phone := phone["type" := Text("tel")];
      phone := phone["class" := StrList(PhoneClasses)];
      phone := phone["custom_attributes" := StrMap(PhoneAttributes)];
      r := r["billing_phone" := Arr(phone)];
    }
  }

  /** `modify_register_fields($fields)`. */
  method ModifyRegisterFields(fields: Fields) returns (r: Fields)
    requires Assignable(fields, "phone")
    ensures r == MarkAt(fields, "phone")
  {
    r := fields;
    if IsSet(r, "phone") {
      var phone := r["phone"].entries;
      phone := phone["type" := Text("tel")];
      phone := phone["class" := StrList(PhoneClasses)];
      phone := phone["custom_attributes" := StrMap(PhoneAttributes)];
      r := r["phone" := Arr(phone)];
    }
  }

  /** The checkout filter marks the billing phone and the shipping phone when
      they are set, creates neither when it is absent, and leaves every other
      group, and every other field of the two groups, as it was. */
  lemma CheckoutFieldsMarked(fields: Fields)
    requires AssignableIn(fields, "billing", "billing_phone")
    requires AssignableIn(fields, "shipping", "shipping_phone")
    ensures AssignableIn(MarkIn(fields, "billing", "billing_phone"), "shipping", "shipping_phone")
    ensures var r := MarkIn(MarkIn(fields, "billing", "billing_phone"), "shipping", "shipping_phone");
            && r.Keys == fields.Keys
            && (forall g :: g in fields && g != "billing" && g != "shipping" ==> r[g] == fields[g])
            && (IsSetIn(fields, "billing", "billing_phone") <==> IsSetIn(r, "billing", "billing_phone"))
            && (IsSetIn(fields, "shipping", "shipping_phone") <==> IsSetIn(r, "shipping", "shipping_phone"))
            && (IsSetIn(fields, "billing", "billing_phone") ==>
                  r["billing"].entries.Keys == fields["billing"].entries.Keys
                  && r["billing"].entries["billing_phone"] == Arr(Marked(fields["billing"].entries["billing_phone"].entries))
                  && (forall k :: k in fields["billing"].entries && k != "billing_phone" ==>
                                    r["billing"].entries[k] == fields["billing"].entries[k]))
            && (IsSetIn(fields, "shipping", "shipping_phone") ==>
                  r["shipping"].entries.Keys == fields["shipping"].entries.Keys
                  && r["shipping"].entries["shipping_phone"] == Arr(Marked(fields["shipping"].entries["shipping_phone"].entries))
                  && (forall k :: k in fields["shipping"].entries && k != "shipping_phone" ==>
                                    r["shipping"].entries[k] == fields["shipping"].entries[k]))
            && ("billing" in fields && !IsSetIn(fields, "billing", "billing_phone") ==> r["billing"] == fields["billing"])
            && ("shipping" in fields && !IsSetIn(fields, "shipping", "shipping_phone") ==> r["shipping"] == fields["shipping"])
  {
  }

  /** Marking a field twice is marking it once. */
  lemma MarkedIdempotent(field: Fields)
    ensures Marked(Marked(field)) == Marked(field)
  {
  }

  /** The account and registration filters are idempotent: they only assign
      constants. */
  lemma MarkAtIdempotent(fields: Fields, key: string)
    requires Assignable(fields, key)
    ensures Assignable(MarkAt(fields, key), key)
    ensures MarkAt(MarkAt(fields, key), key) == MarkAt(fields, key)
  {
    if IsSet(fields, key) {
      MarkedIdempotent(fields[key].entries);
    }
  }

  /** The checkout filter is idempotent. */
  lemma CheckoutIdempotent(fields: Fields)
    requires AssignableIn(fields, "billing", "billing_phone")
    requires AssignableIn(fields, "shipping", "shipping_phone")
    ensures var once := MarkIn(MarkIn(fields, "billing", "billing_phone"), "shipping", "shipping_phone");
            && AssignableIn(once, "billing", "billing_phone")
            && AssignableIn(MarkIn(once, "billing", "billing_phone"), "shipping", "shipping_phone")
            && MarkIn(MarkIn(once, "billing", "billing_phone"), "shipping", "shipping_phone") == once
  {
    var b := MarkIn(fields, "billing", "billing_phone");
    var once := MarkIn(b, "shipping", "shipping_phone");
    if IsSetIn(fields, "billing", "billing_phone") {
      MarkAtIdempotent(fields["billing"].entries, "billing_phone");
    }
    if IsSetIn(fields, "shipping", "shipping_phone") {
      MarkAtIdempotent(fields["shipping"].entries, "shipping_phone");
    }
    var b2 := MarkIn(once, "billing", "billing_phone");
    assert b2 == once;
  }

  /** `validate_phone_field($phone)`. */
  predicate ValidatePhoneField(phone: string) {
    Matches(Server, phone)
  }

  /** The store's check accepts exactly what the form plugin's server check
      accepts: a non-empty string of digits, ASCII white space and the symbols
      `( ) - + . # * & =`. */
  lemma ValidatorsAgree(phone: string)
    ensures ValidatePhoneField(phone) <==> ContactForm.IsValidPhone(phone)
    ensures ValidatePhoneField(phone) <==>
              phone != "" && forall i :: 0 <= i < |phone| ==>
                IsAsciiDigit(phone[i]) || IsPcreSpace(phone[i]) || phone[i] in "()-+.#*&="
  {
    ContactForm.IsValidPhoneIff(phone);
  }

}
