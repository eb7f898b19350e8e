/** Character classes and string helpers shared by the JavaScript and PHP parts of the plugin. */
module Text {

  /** `\d` / `[0-9]`: an ASCII decimal digit (JavaScript and PCRE agree). */
  predicate IsAsciiDigit(c: char) {
    '0' <= c <= '9'
  }

  /** JavaScript's `\s` and the characters `String.prototype.trim` removes:
      the WhiteSpace and LineTerminator code points of ECMA-262. */
  predicate IsJsSpace(c: char) {
    c == '\t' || c == '\n' || c == '\U{B}' || c == '\U{C}' || c == '\r' || c == ' '
    || c == '\U{A0}' || c == '\U{1680}' || ('\U{2000}' <= c <= '\U{200A}')
    || c == '\U{2028}' || c == '\U{2029}' || c == '\U{202F}' || c == '\U{205F}'
    || c == '\U{3000}' || c == '\U{FEFF}'
  }

  /** PCRE's `\s` without the `u` modifier and with the default C-locale tables:
      space, tab, line feed, vertical tab, form feed, carriage return. */
  predicate IsPcreSpace(c: char) {
    c == ' ' || c == '\t' || c == '\n' || c == '\U{B}' || c == '\U{C}' || c == '\r'
  }

  /** The characters PHP's `trim` removes when given no character list. */
  predicate IsPhpTrimmed(c: char) {
    c == ' ' || c == '\t' || c == '\n' || c == '\r' || c == '\0' || c == '\U{B}'
  }

  /** Number of leading characters of `s` that `drop` accepts. */
  function LeadingCount(s: string, drop: char -> bool): (n: nat)
    ensures n <= |s|
    ensures forall k :: 0 <= k < n ==> drop(s[k])
    ensures n < |s| ==> !drop(s[n])
  {
    if s == [] || !drop(s[0]) then 0 else 1 + LeadingCount(s[1..], drop)
  }

  /** Number of trailing characters of `s` that `drop` accepts. */
  function TrailingCount(s: string, drop: char -> bool): (n: nat)
    ensures n <= |s|
    ensures forall k :: |s| - n <= k < |s| ==> drop(s[k])
    ensures n < |s| ==> !drop(s[|s| - n - 1])
  {
    if s == [] || !drop(s[|s| - 1]) then 0 else 1 + TrailingCount(s[..|s| - 1], drop)
  }

  /** `s` without its leading and trailing characters accepted by `drop`. */
  function TrimWith(s: string, drop: char -> bool): (r: string)
    ensures |r| <= |s|
  {
    var a := LeadingCount(s, drop);
    var t := s[a..];
    var b := TrailingCount(t, drop);
    t[..|t| - b]
  }

  /** The trimmed string is a piece of `s` that neither begins nor ends with a
      dropped character, and it is empty exactly when every character of `s` is
      dropped. */
  lemma TrimWithShape(s: string, drop: char -> bool)
    ensures var r := TrimWith(s, drop);
            (r == [] || (!drop(r[0]) && !drop(r[|r| - 1])))
            && (r == [] <==> forall k :: 0 <= k < |s| ==> drop(s[k]))
            && exists i :: OccursAt(s, r, i)
  {
    var a := LeadingCount(s, drop);
    var t := s[a..];
    var b := TrailingCount(t, drop);
    assert TrimWith(s, drop) == t[..|t| - b];
    assert OccursAt(s, t[..|t| - b], a);
  }

  /** JavaScript `String.prototype.trim`. */
  function JsTrim(s: string): string {
    TrimWith(s, IsJsSpace)
  }

  /** PHP `trim` with its default character list. */
  function PhpTrim(s: string): string {
    TrimWith(s, IsPhpTrimmed)
  }

  /** PHP `empty` on a string: true for `""` and `"0"`. */
  predicate PhpEmpty(s: string) {
    s == "" || s == "0"
  }

  /** Trimming twice removes nothing more. */
  lemma {:induction false} TrimIdempotent(s: string, drop: char -> bool)
    ensures TrimWith(TrimWith(s, drop), drop) == TrimWith(s, drop)
  {
    var r := TrimWith(s, drop);
    TrimWithShape(s, drop);
    if r != [] {
      assert LeadingCount(r, drop) == 0;
      assert TrailingCount(r, drop) == 0;
      assert r[0..] == r;
    }
  }

  /** Number of ASCII digits in `s`: the length of `s.replace(/\D/g, '')`. */
  function DigitCount(s: string): (n: nat)
    ensures n <= |s|
  {
    if s == [] then 0 else (if IsAsciiDigit(s[0]) then 1 else 0) + DigitCount(s[1..])
  }

  /** `sub` occurs in `s` starting at index `i`. */
  predicate OccursAt(s: string, sub: string, i: int) {
    0 <= i <= |s| - |sub| && s[i..i + |sub|] == sub
  }

  /** `s` begins with `p`. */
  predicate StartsWith(s: string, p: string) {
    |p| <= |s| && s[..|p|] == p
  }

  /** JavaScript `s.includes(sub)`. */
  predicate Contains(s: string, sub: string)
    decreases |s|
  {
    StartsWith(s, sub) || (s != [] && Contains(s[1..], sub))
  }

  /** `Contains` holds exactly when `sub` occurs at some position of `s`. */
  lemma {:induction false} ContainsAt(s: string, sub: string)
    ensures Contains(s, sub) <==> exists i :: OccursAt(s, sub, i)
    decreases |s|
  {
    if StartsWith(s, sub) {
      assert OccursAt(s, sub, 0);
    }
    if s != [] {
      ContainsAt(s[1..], sub);
      if Contains(s[1..], sub) {
        var i :| OccursAt(s[1..], sub, i);
        assert s[i + 1..i + 1 + |sub|] == s[1..][i..i + |sub|];
        assert OccursAt(s, sub, i + 1);
      }
      if exists i :: OccursAt(s, sub, i) {
        var i :| OccursAt(s, sub, i);
        if i > 0 {
          assert s[1..][i - 1..i - 1 + |sub|] == s[i..i + |sub|];
          assert OccursAt(s[1..], sub, i - 1);
        }
      }
    } else if exists i :: OccursAt(s, sub, i) {
      var i :| OccursAt(s, sub, i);
      assert sub == [];
    }
  }

  /** PHP `stripslashes` (what `wp_unslash` does to a string): every backslash is
      removed and the character after it kept literally, except that `\0` becomes
      a NUL character; a backslash at the very end is dropped. */
  function StripSlashes(s: string): (r: string)
    ensures |r| <= |s|
  {
    if s == [] then []
    else if s[0] != '\\' then [s[0]] + StripSlashes(s[1..])
    else if |s| == 1 then []
    else (if s[1] == '0' then ['\0'] else [s[1]]) + StripSlashes(s[2..])
  }

  /** A string without backslashes is left as it is. */
  lemma {:induction false} StripSlashesNoBackslash(s: string)
    requires forall i :: 0 <= i < |s| ==> s[i] != '\\'
    ensures StripSlashes(s) == s
  {
    if s != [] {
      StripSlashesNoBackslash(s[1..]);
    }
  }

  /** `stripslashes` undoes PHP `addslashes`, which WordPress applies to every
      request variable before plugins see it. */
  lemma {:induction false} StripSlashesOfAddSlashes(s: string)
    ensures StripSlashes(AddSlashes(s)) == s
  {
    if s != [] {
      StripSlashesOfAddSlashes(s[1..]);
      var head := if s[0] == '\0' then ['\\', '0']
                  else if s[0] == '\'' || s[0] == '"' || s[0] == '\\' then ['\\', s[0]]
                  else [s[0]];
      assert AddSlashes(s) == head + AddSlashes(s[1..]);
      assert StripSlashes(AddSlashes(s)) == [s[0]] + StripSlashes(AddSlashes(s[1..]));
    }
  }

  /** PHP `addslashes`: a backslash before every single quote, double quote and
      backslash, and a NUL character written as `\0`. */
  function AddSlashes(s: string): (r: string)
    ensures |r| >= |s|
  {
    if s == [] then []
    else (if s[0] == '\0' then ['\\', '0']
          else if s[0] == '\'' || s[0] == '"' || s[0] == '\\' then ['\\', s[0]]
          else [s[0]]) + AddSlashes(s[1..])
  }
}
