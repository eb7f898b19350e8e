/** The settings page script: the width check that guards the settings form,
    and the live preview, which reads the width field and the three colour
    pickers and restyles the preview field. */
module AdminSettings {
  import opened Options
  import opened Text

  // ------------------------------------------------------------------ width

  /** One or more ASCII digits. */
  predicate AllDigits(s: string) {
    |s| > 0 && forall i :: 0 <= i < |s| ==> IsAsciiDigit(s[i])
  }

  /** `\d+(?:\.\d+)?`: digits, optionally followed by a dot and more digits. */
  predicate IsWidthNumber(s: string) {
    AllDigits(s) || exists i :: 0 < i < |s| && s[i] == '.' && AllDigits(s[..i]) && AllDigits(s[i + 1..])
  }

  /** `%|px|em|rem|vw|vh`. */
  predicate IsUnit(u: string) {
    u == "%" || u == "px" || u == "em" || u == "rem" || u == "vw" || u == "vh"
  }

  /** `/^(\d+(?:\.\d+)?)(%|px|em|rem|vw|vh)$/.test(w)`: `w` splits into a number
      and a unit. JavaScript's `$` without the `m` flag matches only at the very
      end, so a trailing line break is refused. */
  predicate MatchesWidthPattern(w: string) {
    exists k :: 0 <= k <= |w| && IsWidthNumber(w[..k]) && IsUnit(w[k..])
  }

  /** `isValidWidth(width)`. */
  predicate IsValidWidth(w: string) {
    MatchesWidthPattern(w) || w == "auto" || w == "inherit"
  }

  /** The width pattern read left to right, as a backtracking engine settles it:
      the longest run of digits, then either a dot, a second run of digits and
      a unit, or a unit at once. No unit begins with a digit or a dot, so no
      other split is ever tried successfully. */
  function ScanWidth(w: string): bool {
    var n := LeadingCount(w, IsAsciiDigit);
    if n == 0 then false
    else if n < |w| && w[n] == '.' then
      var m := LeadingCount(w[n + 1..], IsAsciiDigit);
      m > 0 && IsUnit(w[n + 1 + m..])
    else IsUnit(w[n..])
  }

  /** A unit begins with neither a digit nor a dot. */
  lemma UnitHead(u: string)
    requires IsUnit(u)
    ensures |u| > 0 && !IsAsciiDigit(u[0]) && u[0] != '.'
  {
  }

  /** Whatever the left-to-right reading accepts, the pattern matches. */
  lemma ScanWidthSound(w: string)
    requires ScanWidth(w)
    ensures MatchesWidthPattern(w)
  {
    var n := LeadingCount(w, IsAsciiDigit);
    assert AllDigits(w[..n]) by {
      forall j | 0 <= j < n ensures IsAsciiDigit(w[..n][j]) { assert w[..n][j] == w[j]; }
    }
    if n < |w| && w[n] == '.' {
      var m := LeadingCount(w[n + 1..], IsAsciiDigit);
      var k := n + 1 + m;
      var num := w[..k];
      var tail := w[n + 1..];
      var ds := tail[..m];
      assert num[..n] == w[..n] && num[n + 1..] == ds;
      assert AllDigits(ds) by {
        forall j | 0 <= j < m ensures IsAsciiDigit(ds[j]) { assert ds[j] == tail[j]; }
      }
      assert IsWidthNumber(num);
      assert w[n + 1..][m..] == w[k..];
      assert IsUnit(w[k..]);
    } else {
      assert IsUnit(w[n..]);
    }
  }

  /** The longest run of leading digits of `w` ends at `k` when the first `k`
      characters are digits and the next one is not. */
  lemma DigitRun(w: string, k: nat)
    requires k < |w| && !IsAsciiDigit(w[k])
    requires forall j :: 0 <= j < k ==> IsAsciiDigit(w[j])
    ensures LeadingCount(w, IsAsciiDigit) == k
  {
  }

  /** A whole number followed by a unit is accepted. */
  lemma ScanWhole(w: string, k: nat)
    requires k <= |w| && AllDigits(w[..k]) && IsUnit(w[k..])
    ensures ScanWidth(w)
  {
    UnitHead(w[k..]);
    assert w[k..][0] == w[k];
    assert forall j :: 0 <= j < k ==> IsAsciiDigit(w[j]) by {
      forall j | 0 <= j < k ensures IsAsciiDigit(w[j]) { assert w[..k][j] == w[j]; }
    }
    DigitRun(w, k);
  }

  /** A decimal number, its dot at `i`, followed by a unit at `k` is accepted. */
  lemma ScanDecimal(w: string, i: nat, k: nat)
    requires 0 < i < k <= |w| && w[i] == '.' && AllDigits(w[..i]) && AllDigits(w[i + 1..k]) && IsUnit(w[k..])
    ensures ScanWidth(w)
  {
    UnitHead(w[k..]);
    assert w[k..][0] == w[k];
    assert forall j :: 0 <= j < i ==> IsAsciiDigit(w[j]) by {
      forall j | 0 <= j < i ensures IsAsciiDigit(w[j]) { assert w[..i][j] == w[j]; }
    }
    DigitRun(w, i);
    var rest := w[i + 1..];
    assert forall j :: 0 <= j < k - i - 1 ==> IsAsciiDigit(rest[j]) by {
      forall j | 0 <= j < k - i - 1 ensures IsAsciiDigit(rest[j]) { assert w[i + 1..k][j] == rest[j]; }
    }
    assert rest[k - i - 1] == w[k];
    DigitRun(rest, k - i - 1);
    assert w[i + 1 + (k - i - 1)..] == w[k..];
  }

  /** Whatever the pattern matches, the left-to-right reading accepts. */
  lemma ScanWidthComplete(w: string)
    requires MatchesWidthPattern(w)
    ensures ScanWidth(w)
  {
    var k :| 0 <= k <= |w| && IsWidthNumber(w[..k]) && IsUnit(w[k..]);
    var num := w[..k];
    if AllDigits(num) {
      ScanWhole(w, k);
    } else {
      var i :| 0 < i < k && num[i] == '.' && AllDigits(num[..i]) && AllDigits(num[i + 1..]);
      assert num[..i] == w[..i] && num[i + 1..] == w[i + 1..k];
      ScanDecimal(w, i, k);
    }
  }

  /** The left-to-right reading accepts exactly the strings the pattern matches. */
  lemma ScanWidthCorrect(w: string)
    ensures ScanWidth(w) <==> MatchesWidthPattern(w)
  {
    if ScanWidth(w) {
      ScanWidthSound(w);
    }
    if MatchesWidthPattern(w) {
      ScanWidthComplete(w);
    }
  }

  /** Accepted: a whole or decimal number with a unit, and the two keywords. */
  lemma AcceptedWidths()
    ensures IsValidWidth("100%") && IsValidWidth("300px") && IsValidWidth("1.5rem")
    ensures IsValidWidth("auto") && IsValidWidth("inherit")
  {
    assert IsWidthNumber("100") && IsUnit("%") && "100%"[..3] == "100" && "100%"[3..] == "%";
    assert IsWidthNumber("300") && IsUnit("px") && "300px"[..3] == "300" && "300px"[3..] == "px";
    assert "1.5"[..1] == "1" && "1.5"[2..] == "5";
    assert IsWidthNumber("1.5") && "1.5rem"[..3] == "1.5" && "1.5rem"[3..] == "rem";
  }

  /** A width the pattern matches begins with a digit and ends with the last
      letter of a unit. */
  lemma MatchShape(w: string)
    requires MatchesWidthPattern(w)
    ensures IsAsciiDigit(w[0]) && w[|w| - 1] in "%xmwh"
  {
    var k :| 0 <= k <= |w| && IsWidthNumber(w[..k]) && IsUnit(w[k..]);
    assert w[..k][0] == w[0];
    assert w[k..][|w| - k - 1] == w[|w| - 1];
  }

  /** Refused: a bare number, a number without digits before or after its dot,
      a unit in upper case, and a width followed by a line break. */
  lemma RefusedWidths()
    ensures !IsValidWidth("100") && !IsValidWidth(".5px") && !IsValidWidth("1.px")
    ensures !IsValidWidth("100PX") && !IsValidWidth("100%\n")
  {
    if MatchesWidthPattern("100") { MatchShape("100"); }
    if MatchesWidthPattern(".5px") { MatchShape(".5px"); }
    if MatchesWidthPattern("100PX") { MatchShape("100PX"); }
    if MatchesWidthPattern("100%\n") { MatchShape("100%\n"); }
    DigitRun("1.px", 1);
    assert "1.px"[2..][0] == 'p';
    DigitRun("1.px"[2..], 0);
    ScanWidthCorrect("1.px");
  }

  /** The settings form's submit handler cancels the submission for the width
      field's value `widthValue`: its trimmed text is non-empty and not a valid
      width. */
  predicate SubmitBlocked(widthValue: string) {
    var w := JsTrim(widthValue);
    w != "" && !IsValidWidth(w)
  }

  /** An empty or blank width never blocks the form; a valid width, with or
      without surrounding blanks, never blocks it either. */
  lemma BlankWidthNeverBlocks(widthValue: string)
    requires forall i :: 0 <= i < |widthValue| ==> IsJsSpace(widthValue[i])
    ensures !SubmitBlocked(widthValue)
  {
    TrimWithShape(widthValue, IsJsSpace);
  }

  /** A blocked submission has a non-blank value, and the text after trimming is
      refused by the width check; surrounding blanks alone never block. */
  lemma BlockedMeansInvalid(widthValue: string)
    ensures SubmitBlocked(widthValue) <==>
              (exists i :: 0 <= i < |widthValue| && !IsJsSpace(widthValue[i])) && !IsValidWidth(JsTrim(widthValue))
    ensures SubmitBlocked(widthValue) <==> SubmitBlocked(JsTrim(widthValue))
  {
    TrimWithShape(widthValue, IsJsSpace);
    TrimIdempotent(widthValue, IsJsSpace);
  }

  // ---------------------------------------------------------------- preview

  /** The three colour settings the preview shows. */
  datatype ColorKind = Border | DialCode | FlagBackground

  /** A colour picker: its input's `name` and its current colour. */
  datatype Picker = Picker(name: string, color: string)

  /** The settings object `getCurrentSettings` returns; a missing property is
      `None`. */
  datatype Settings = Settings(width: Option<string>, borderColor: Option<string>,
                               ddiColor: Option<string>, bgColor: Option<string>)

  /** A picker's kind by the first of `border_color`, `ddi_color`, `bg_color`
      its name contains; a picker with none of them is ignored. */
  function KindOf(name: string): (k: Option<ColorKind>)
    ensures k == Some(Border) <==> Contains(name, "border_color")
    ensures k == Some(DialCode) <==> !Contains(name, "border_color") && Contains(name, "ddi_color")
    ensures k == Some(FlagBackground) <==>
              !Contains(name, "border_color") && !Contains(name, "ddi_color") && Contains(name, "bg_color")
  {
    if Contains(name, "border_color") then Some(Border)
    else if Contains(name, "ddi_color") then Some(DialCode)
    else if Contains(name, "bg_color") then Some(FlagBackground)
    else None
  }

  /** The colour of the last picker of kind `k`, if any. */
  function LastColor(pickers: seq<Picker>, k: ColorKind): Option<string>
    decreases |pickers|
  {
    if pickers == [] then None
    else if KindOf(pickers[|pickers| - 1].name) == Some(k) then Some(pickers[|pickers| - 1].color)
    else LastColor(pickers[..|pickers| - 1], k)
  }

  /** `LastColor` is the colour of a picker of that kind after which no picker of
      that kind follows, and `None` exactly when there is no picker of that kind:
      later pickers overwrite earlier ones. */
  lemma {:induction false} LastColorSpec(pickers: seq<Picker>, k: ColorKind)
    ensures LastColor(pickers, k).None? <==> forall i :: 0 <= i < |pickers| ==> KindOf(pickers[i].name) != Some(k)
    ensures LastColor(pickers, k).Some? ==>
              exists i :: 0 <= i < |pickers| && KindOf(pickers[i].name) == Some(k)
                          && pickers[i].color == LastColor(pickers, k).value
                          && forall j :: i < j < |pickers| ==> KindOf(pickers[j].name) != Some(k)
    decreases |pickers|
  {
    if pickers != [] {
      var n := |pickers| - 1;
      var init := pickers[..n];
      LastColorSpec(init, k);
      if KindOf(pickers[n].name) != Some(k) {
        assert forall i :: 0 <= i < n ==> init[i] == pickers[i];
        if LastColor(init, k).Some? {
          var i :| 0 <= i < |init| && KindOf(init[i].name) == Some(k)
                   && init[i].color == LastColor(init, k).value
                   && forall j :: i < j < |init| ==> KindOf(init[j].name) != Some(k);
          assert pickers[i] == init[i];
        }
      }
    }
  }

  /** The preview field's styles the script sets; `None` until first set. */
  class Preview {
    var width: Option<string>           // `.iti` width
    var borderColor: Option<string>     // `.iti` border-color
    var dialCodeColor: Option<string>   // `.iti__selected-dial-code` color
    var flagBackground: Option<string>  // `.iti__selected-flag` background-color

    constructor ()
      ensures width.None? && borderColor.None? && dialCodeColor.None? && flagBackground.None?
    {
      width := None;
      borderColor := None;
      dialCodeColor := None;
      flagBackground := None;
    }

    /** `getCurrentSettings()`: the width field's value (`widthField`, `None`
        when the page has no width field) and the pickers in page order. */
    method GetCurrentSettings(widthField: Option<string>, pickers: seq<Picker>) returns (s: Settings)
      ensures s == Settings(widthField, LastColor(pickers, Border), LastColor(pickers, DialCode),
                            LastColor(pickers, FlagBackground))
    {
      s := Settings(None, None, None, None);
      if widthField.Some? {
        s := s.(width := widthField);
      }
      for k := 0 to |pickers|
        invariant s == Settings(widthField, LastColor(pickers[..k], Border), LastColor(pickers[..k], DialCode),
                                LastColor(pickers[..k], FlagBackground))
      {
        assert pickers[..k + 1][..k] == pickers[..k];
        var name := pickers[k].name;
        var color := pickers[k].color;
        if Contains(name, "border_color") {
          s := s.(borderColor := Some(color));
        } else if Contains(name, "ddi_color") {
          s := s.(ddiColor := Some(color));
        } else if Contains(name, "bg_color") {
          s := s.(bgColor := Some(color));
        }
      }
      assert pickers[..|pickers|] == pickers;
    }

    /** `updatePreview()`: each style is set from its setting when the setting
        is a non-empty string, and otherwise keeps what it had. */
    method UpdatePreview(widthField: Option<string>, pickers: seq<Picker>)
      modifies this
      ensures width == if Truthy(widthField) then widthField else old(width)
      ensures borderColor == if Truthy(LastColor(pickers, Border)) then LastColor(pickers, Border) else old(borderColor)
      ensures dialCodeColor == if Truthy(LastColor(pickers, DialCode)) then LastColor(pickers, DialCode) else old(dialCodeColor)
      ensures flagBackground == if Truthy(LastColor(pickers, FlagBackground)) then LastColor(pickers, FlagBackground)
                                else old(flagBackground)
    {
      var settings := GetCurrentSettings(widthField, pickers);
      if Truthy(settings.width) {
        width := settings.width;
      }
      if Truthy(settings.borderColor) {
        borderColor := settings.borderColor;
      }
      if Truthy(settings.ddiColor) {
        dialCodeColor := settings.ddiColor;
      }
      if Truthy(settings.bgColor) {
        flagBackground := settings.bgColor;
      }
    }
  }

  /** JavaScript truthiness of a property that may be missing: a non-empty string. */
  predicate Truthy(v: Option<string>) {
    v.Some? && v.value != ""
  }
}
