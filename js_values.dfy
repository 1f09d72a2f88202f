/** JavaScript value semantics that the MES handlers rely on: optional values,
    truthiness of strings, strict `=== true` tests on JSON flags,
    `String.prototype.toUpperCase` and `String.prototype.trim`. */
module JsValues {

  /** A value that may be absent (`null` or `undefined` in the source). */
  datatype Option<+T> = None | Some(value: T) {
    /** `x ?? d` */
    function GetOr(default: T): T {
      match this
      case Some(v) => v
      case None => default
    }
  }

  /** A JSON value read from a policy or kit column where the source tests `=== true`:
      absent, a boolean, or any other JSON value (a string "true", a number, ...). */
  datatype JsonFlag = Unset | JsonBool(b: bool) | OtherJson

  /** `x === true`: only the boolean `true` counts. */
  predicate IsTrue(f: JsonFlag) {
    f == JsonBool(true)
  }

  /** JavaScript truthiness of an optional string: `null`, `undefined` and `""` are falsy. */
  predicate Truthy(s: Option<string>) {
    s.Some? && s.value != ""
  }

  /** Opaque structured data (metrics, read-backs, label payloads); `{}` is `map[]`. */
  type Payload = map<string, string>

  // ---------------------------------------------------------------------------
  // toUpperCase

  /** Upper-case mapping of one character. ASCII letters map to their capitals;
      the two non-ASCII letters whose upper case is spelled with the letters of
      "PASS" are mapped as well: long s (U+017F) to "S" and sharp s (U+00DF) to "SS". */
  function UpperChar(c: char): string {
    if 'a' <= c <= 'z' then [(c as int - 32) as char]
    else if c == '\U{017F}' then "S"
    else if c == '\U{00DF}' then "SS"
    else [c]
  }

  /** `s.toUpperCase()`. No character upper-cases to nothing, and ASCII text keeps
      its length. */
  function ToUpper(s: string): (r: string)
    ensures |s| <= |r|
    ensures (forall i :: 0 <= i < |s| ==> s[i] as int < 128) ==> |r| == |s|
  {
    if s == [] then [] else UpperChar(s[0]) + ToUpper(s[1..])
  }

  /** The letters that upper-case to S: s, S and long s (U+017F). */
  predicate UpperS(c: char) {
    c == 's' || c == 'S' || c == '\U{017F}'
  }

  /** The spellings of a result that `toUpperCase()` turns into "PASS": P and A
      in either case, then two of s, S and long s, or a single sharp s. */
  predicate PassSpelling(s: string) {
    && |s| >= 3
    && (s[0] == 'p' || s[0] == 'P')
    && (s[1] == 'a' || s[1] == 'A')
    && ((|s| == 4 && UpperS(s[2]) && UpperS(s[3])) || (|s| == 3 && s[2] == '\U{00DF}'))
  }

  /** Which single characters upper-case to which pieces of "PASS". */
  lemma UpperCharPieces(c: char)
    ensures UpperChar(c) == "P" <==> c == 'p' || c == 'P'
    ensures UpperChar(c) == "A" <==> c == 'a' || c == 'A'
    ensures UpperChar(c) == "S" <==> UpperS(c)
    ensures UpperChar(c) == "SS" <==> c == '\U{00DF}'
    ensures |UpperChar(c)| == 1 || UpperChar(c) == "SS"
  {
  }

  /** `s` upper-cases to the letter `x` (not S) followed by `w` exactly when its
      first character upper-cases to `x` and the rest to `w`. */
  lemma UpperConsSingle(s: string, x: char, w: string)
    requires s != [] && x != 'S'
    ensures ToUpper(s) == [x] + w <==> UpperChar(s[0]) == [x] && ToUpper(s[1..]) == w
  {
    UpperCharPieces(s[0]);
    var u := UpperChar(s[0]);
    if ToUpper(s) == [x] + w {
      assert u[0] == ([x] + w)[0];
      assert u == [x];
      assert ToUpper(s[1..]) == (u + ToUpper(s[1..]))[1..];
    }
  }

  /** Exactly the one-character strings s, S and long s upper-case to "S". */
  lemma ToUpperIsS(w: string)
    ensures ToUpper(w) == "S" <==> |w| == 1 && UpperS(w[0])
  {
    if w != [] {
      UpperCharPieces(w[0]);
      assert ToUpper(w) == UpperChar(w[0]) + ToUpper(w[1..]);
      if |w| > 1 {
        assert |ToUpper(w[1..])| >= 1;
      }
    }
  }

  /** The spellings that upper-case to "SS": two of s, S and long s, or sharp s. */
  lemma ToUpperIsSS(w: string)
    ensures ToUpper(w) == "SS" <==> (|w| == 2 && UpperS(w[0]) && UpperS(w[1])) || (|w| == 1 && w[0] == '\U{00DF}')
  {
    if w == [] {
      return;
    }
    var rest := w[1..];
    var u := UpperChar(w[0]);
    UpperCharPieces(w[0]);
    assert ToUpper(w) == u + ToUpper(rest);
    assert |ToUpper(rest)| >= |rest|;
    if u == "SS" {
      assert ToUpper(w) == "SS" <==> ToUpper(rest) == [];
    } else if UpperS(w[0]) {
      ToUpperIsS(rest);
      assert ToUpper(w) == "SS" ==> ToUpper(rest) == ToUpper(w)[1..];
      assert |rest| == 1 ==> rest[0] == w[1];
    } else {
      assert ToUpper(w)[0] == u[0] != 'S';
    }
  }

  /** The comparison `toUpperCase() !== "PASS"` accepts exactly the spellings in
      `PassSpelling`: a stored "pass", "Pass" or "PASS" counts as passing, and no
      other result does. */
  lemma ToUpperIsPass(s: string)
    ensures ToUpper(s) == "PASS" <==> PassSpelling(s)
  {
    if s == [] {
      return;
    }
    assert "PASS" == ['P'] + "ASS";
    UpperConsSingle(s, 'P', "ASS");
    UpperCharPieces(s[0]);
    if |s| == 1 {
      assert ToUpper(s[1..]) == [];
      return;
    }
    var s1 := s[1..];
    assert "ASS" == ['A'] + "SS";
    UpperConsSingle(s1, 'A', "SS");
    UpperCharPieces(s1[0]);
    var s2 := s1[1..];
    ToUpperIsSS(s2);
    assert |s2| == |s| - 2;
    assert |s2| >= 1 ==> s2[0] == s[2];
    assert |s2| >= 2 ==> s2[1] == s[3];
  }

  /** The stored results a fixture can submit compare against "PASS" as the
      gate expects: "PASS" upper-cases to itself, "FAIL" does not reach "PASS",
      and lower-case "pass" is accepted too. */
  lemma ResultSpellings()
    ensures ToUpper("PASS") == "PASS"
    ensures ToUpper("pass") == "PASS"
    ensures ToUpper("FAIL") != "PASS"
  {
    assert ToUpper("PASS") == UpperChar('P') + ToUpper("ASS");
    assert ToUpper("ASS") == UpperChar('A') + ToUpper("SS");
    assert ToUpper("SS") == UpperChar('S') + ToUpper("S");
    assert ToUpper("S") == UpperChar('S') + ToUpper("");
    assert ToUpper("pass") == UpperChar('p') + ToUpper("ass");
    assert ToUpper("ass") == UpperChar('a') + ToUpper("ss");
    assert ToUpper("ss") == UpperChar('s') + ToUpper("s");
    assert ToUpper("s") == UpperChar('s') + ToUpper("");
    assert ToUpper("FAIL") == UpperChar('F') + ToUpper("AIL");
  }

  // ---------------------------------------------------------------------------
  // trim

  /** The characters `String.prototype.trim` removes: ECMAScript WhiteSpace and
      LineTerminator code points. */
  const JsWhitespace: set<char> :=
    {'\t', '\n', '\U{000B}', '\U{000C}', '\r', ' ', '\U{00A0}', '\U{1680}',
     '\U{2000}', '\U{2001}', '\U{2002}', '\U{2003}', '\U{2004}', '\U{2005}',
     '\U{2006}', '\U{2007}', '\U{2008}', '\U{2009}', '\U{200A}', '\U{2028}',
     '\U{2029}', '\U{202F}', '\U{205F}', '\U{3000}', '\U{FEFF}'}

  predicate IsJsWhitespace(c: char) {
    c in JsWhitespace
  }

  /** A string made of whitespace only; `""` is blank. */
  predicate Blank(s: string) {
    forall i :: 0 <= i < |s| ==> IsJsWhitespace(s[i])
  }

  /** The number of whitespace characters `s` starts with. */
  function LeadingSpace(s: string): (n: nat)
    ensures n <= |s|
    ensures forall i :: 0 <= i < n ==> IsJsWhitespace(s[i])
    ensures n < |s| ==> !IsJsWhitespace(s[n])
  {
    if s != [] && IsJsWhitespace(s[0]) then 1 + LeadingSpace(s[1..]) else 0
  }

  /** The number of whitespace characters `s` ends with. */
  function TrailingSpace(s: string): (n: nat)
    ensures n <= |s|
    ensures forall i :: |s| - n <= i < |s| ==> IsJsWhitespace(s[i])
    ensures n < |s| ==> !IsJsWhitespace(s[|s| - n - 1])
  {
    if s != [] && IsJsWhitespace(s[|s| - 1]) then 1 + TrailingSpace(s[..|s| - 1]) else 0
  }

  /** `s.trim()`: `s` without its leading and trailing whitespace. */
  function Trim(s: string): string {
    var t := s[LeadingSpace(s)..];
    t[..|t| - TrailingSpace(t)]
  }

  /** A string trims to "" exactly when it is made of whitespace only. */
  lemma TrimBlank(s: string)
    ensures Trim(s) == [] <==> Blank(s)
  {
    var lo := LeadingSpace(s);
    var t := s[lo..];
    if lo < |s| {
      assert t[0] == s[lo];
      assert TrailingSpace(t) < |t|;
    }
  }

  /** A non-blank string trims to the non-empty slice of itself that is left once
      the whitespace before and after it is cut; the slice neither starts nor ends
      with whitespace. */
  lemma TrimSlice(s: string)
    requires Trim(s) != []
    ensures !IsJsWhitespace(Trim(s)[0]) && !IsJsWhitespace(Trim(s)[|Trim(s)| - 1])
    ensures exists lo, hi :: 0 <= lo < hi <= |s| && Trim(s) == s[lo..hi] && Blank(s[..lo]) && Blank(s[hi..])
  {
    var lo := LeadingSpace(s);
    var t := s[lo..];
    var hi := lo + |t| - TrailingSpace(t);
    assert Trim(s) == s[lo..hi];
    assert Blank(s[..lo]);
    assert s[hi..] == t[|t| - TrailingSpace(t)..];
    assert Blank(s[hi..]);
  }
}
