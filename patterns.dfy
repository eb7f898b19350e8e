/** The phone-number character-class patterns used across the plugin. Every one of
    them has the shape `^[\+]?[C]+$`: an optional leading `+`, then one or more
    characters of a bracket class `C`. */
module PhonePatterns {
  import opened Text

  datatype Pattern =
    | Regular       // controller, fields outside popups:  /^[\+]?[0-9\s\(\)\-\+\.\#\*\&\=]+$/
    | Popup         // controller, fields inside popups:   /^[\+]?[0-9\(\)\-\+\.\#\*\&\=]+$/
    | PageBuilder   // page-builder forms:                 /^[\+]?[0-9\(\)\-\s\.]+$/
    | Server        // form-plugin and e-commerce server:  PCRE /^[\+]?[0-9\s\(\)\-\+\.\#\*\&\=]+$/
    | TagAttribute  // HTML `pattern` attribute of the form-plugin tag: [\+]?[0-9\s\(\)\-\+\.]+

  /** The symbols (besides digits and white space) of each pattern's bracket class. */
  function Symbols(p: Pattern): string {
    match p
    case Regular => "()-+.#*&="
    case Popup => "()-+.#*&="
    case PageBuilder => "()-."
    case Server => "()-+.#*&="
    case TagAttribute => "()-+."
  }

  /** Membership in the bracket class `C` of pattern `p`. The JavaScript patterns
      (and the HTML attribute, which the browser evaluates as a JavaScript regular
      expression) read `\s` as JavaScript white space; the server pattern reads it
      as PCRE's ASCII white space. */
  predicate InClass(p: Pattern, c: char) {
    IsAsciiDigit(c)
    || c in Symbols(p)
    || (match p
        case Popup => false
        case Server => IsPcreSpace(c)
        case _ => IsJsSpace(c))
  }

  predicate AllInClass(p: Pattern, s: string) {
    forall i :: 0 <= i < |s| ==> InClass(p, s[i])
  }

  /** `s` matches `^[\+]?[C]+$`. */
  predicate Matches(p: Pattern, s: string) {
    (|s| >= 1 && AllInClass(p, s)) || (|s| >= 2 && s[0] == '+' && AllInClass(p, s[1..]))
  }

  /** When `+` is itself in the class, the optional leading `+` adds nothing: the
      pattern holds iff the string is non-empty and every character is in the class.
      This is the case for every pattern but the page-builder one. */
  lemma PlusInClassMatches(p: Pattern, s: string)
    requires p != PageBuilder
    ensures Matches(p, s) <==> |s| > 0 && AllInClass(p, s)
  {
    assert InClass(p, '+');
    if |s| >= 2 && s[0] == '+' && AllInClass(p, s[1..]) {
      forall i | 0 <= i < |s| ensures InClass(p, s[i]) {
        if i > 0 {
          assert s[i] == s[1..][i - 1];
        }
      }
    }
  }

  /** The page-builder class lacks `+`, so a `+` is accepted only as the first
      character and must be followed by at least one class character. */
  lemma PageBuilderMatches(s: string)
    ensures Matches(PageBuilder, s) <==>
      (|s| > 0 && s[0] != '+' && AllInClass(PageBuilder, s))
      || (|s| > 1 && s[0] == '+' && AllInClass(PageBuilder, s[1..]))
  {
  }

  /** Every string the popup pattern accepts is accepted by the regular pattern. */
  lemma PopupSubsetOfRegular(s: string)
    requires Matches(Popup, s)
    ensures Matches(Regular, s)
  {
    PlusInClassMatches(Popup, s);
    PlusInClassMatches(Regular, s);
  }

  /** The popup pattern is strictly narrower: it refuses white space inside a number. */
  lemma PopupRefusesSpace()
    ensures Matches(Regular, "11 9999-0000") && !Matches(Popup, "11 9999-0000")
  {
    assert !InClass(Popup, "11 9999-0000"[2]);
  }

  /** Every string the page-builder pattern accepts is accepted by the regular pattern. */
  lemma PageBuilderSubsetOfRegular(s: string)
    requires Matches(PageBuilder, s)
    ensures Matches(Regular, s)
  {
    PlusInClassMatches(Regular, s);
    forall i | 0 <= i < |s| ensures InClass(Regular, s[i]) {
      if i > 0 && s[0] == '+' && !AllInClass(PageBuilder, s) {
        assert s[i] == s[1..][i - 1];
      }
    }
  }

  /** The page-builder pattern refuses a `+` anywhere but first, and a lone `+`,
      both of which the regular pattern accepts. */
  lemma PageBuilderRefusesInnerPlus()
    ensures Matches(Regular, "55+11") && !Matches(PageBuilder, "55+11")
    ensures Matches(Regular, "++55") && !Matches(PageBuilder, "++55")
    ensures Matches(Regular, "+") && !Matches(PageBuilder, "+")
  {
    assert !InClass(PageBuilder, "55+11"[2]);
    assert !InClass(PageBuilder, "++55"[1]);
    assert "++55"[1..][0] == '+';
  }

  /** On strings of ASCII characters the HTML attribute of the form-plugin tag
      accepts only what the server check accepts. */
  lemma TagAttributeSubsetOfServer(s: string)
    requires forall i :: 0 <= i < |s| ==> s[i] < '\U{80}'
    requires Matches(TagAttribute, s)
    ensures Matches(Server, s)
  {
    PlusInClassMatches(TagAttribute, s);
    PlusInClassMatches(Server, s);
  }

  /** Beyond ASCII the inclusion fails: the browser's `\s` takes a no-break space
      that the server's `\s` refuses, so such a value passes the browser's check and
      is rejected by the server. */
  lemma TagAttributeNotSubsetOfServer()
    ensures Matches(TagAttribute, "11\U{A0}9999") && !Matches(Server, "11\U{A0}9999")
  {
    assert !InClass(Server, "11\U{A0}9999"[2]);
    assert "11\U{A0}9999"[1..][1] == '\U{A0}';
  }

  /** PCRE's `$` (without the `D` modifier) also matches just before a final line
      feed, so the server pattern really accepts `s` when `s` matches or `s` is a
      matching string followed by `\n`. Since `\n` is in the class, that changes
      nothing. */
  lemma ServerDollarBeforeNewline(s: string)
    ensures (Matches(Server, s) || (|s| > 0 && s[|s| - 1] == '\n' && Matches(Server, s[..|s| - 1])))
            <==> Matches(Server, s)
  {
    if |s| > 0 && s[|s| - 1] == '\n' && Matches(Server, s[..|s| - 1]) {
      PlusInClassMatches(Server, s);
      PlusInClassMatches(Server, s[..|s| - 1]);
      forall i | 0 <= i < |s| ensures InClass(Server, s[i]) {
        if i < |s| - 1 {
          assert s[i] == s[..|s| - 1][i];
        }
      }
    }
  }
}
