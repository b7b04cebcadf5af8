/**
 * JavaScript strings as the browser sees them: sequences of UTF-16 code units.
 * `.length`, `.trim()` and regular expressions without the `u` flag all work on
 * code units, so the model does too. Dafny string literals of the program are
 * turned into code units by `Str`.
 */
module JsText {

  type CodeUnit = x: int | 0 <= x < 0x1_0000
  type JsString = seq<CodeUnit>

  /** A literal made of characters of the Basic Multilingual Plane, one code unit each. */
  function Str(s: string): JsString
    requires forall i | 0 <= i < |s| :: s[i] as int < 0x1_0000
  {
    seq(|s|, i requires 0 <= i < |s| => s[i] as int)
  }

  /** Regex class `[A-Za-z]`. */
  predicate IsAsciiLetter(c: CodeUnit) {
    ('A' as int <= c <= 'Z' as int) || ('a' as int <= c <= 'z' as int)
  }

  /** Regex class `[\u0600-\u06FF]`: the Arabic block. */
  predicate IsArabicBlock(c: CodeUnit) {
    0x0600 <= c <= 0x06FF
  }

  /** ECMAScript LineTerminator: LF, CR, LINE SEPARATOR, PARAGRAPH SEPARATOR. */
  predicate IsLineTerminator(c: CodeUnit) {
    c == 0x000A || c == 0x000D || c == 0x2028 || c == 0x2029
  }

  /**
   * Regex class `\s`, which is also what `String.prototype.trim` strips:
   * ECMAScript WhiteSpace (TAB, VT, FF, ZWNBSP and every space separator of
   * category Zs) together with LineTerminator.
   */
  predicate IsJsSpace(c: CodeUnit) {
    c == 0x0009 || c == 0x000B || c == 0x000C || c == 0x0020 || c == 0x00A0 ||
    c == 0x1680 || (0x2000 <= c <= 0x200A) || c == 0x202F || c == 0x205F ||
    c == 0x3000 || c == 0xFEFF || IsLineTerminator(c)
  }

  /** `s` without its leading white space. */
  function TrimStart(s: JsString): JsString {
    if s != [] && IsJsSpace(s[0]) then TrimStart(s[1..]) else s
  }

  /** `s` without its trailing white space. */
  function TrimEnd(s: JsString): JsString {
    if s != [] && IsJsSpace(s[|s| - 1]) then TrimEnd(s[..|s| - 1]) else s
  }

  /** `String.prototype.trim`. */
  function Trim(s: JsString): JsString {
    TrimEnd(TrimStart(s))
  }

  /** `s` is the removed white space followed by `TrimStart(s)`, which does not start with white space. */
  lemma {:induction false} TrimStartShape(s: JsString)
    ensures |TrimStart(s)| <= |s| && TrimStart(s) == s[|s| - |TrimStart(s)|..]
    ensures forall i | 0 <= i < |s| - |TrimStart(s)| :: IsJsSpace(s[i])
    ensures TrimStart(s) == [] || !IsJsSpace(TrimStart(s)[0])
  {
    if s != [] && IsJsSpace(s[0]) {
      TrimStartShape(s[1..]);
      forall i | 1 <= i < |s| - |TrimStart(s)| ensures IsJsSpace(s[i]) {
        assert s[i] == s[1..][i - 1];
      }
    }
  }

  /** `s` is `TrimEnd(s)`, which does not end with white space, followed by the removed white space. */
  lemma {:induction false} TrimEndShape(s: JsString)
    ensures |TrimEnd(s)| <= |s| && TrimEnd(s) == s[..|TrimEnd(s)|]
    ensures forall i | |TrimEnd(s)| <= i < |s| :: IsJsSpace(s[i])
    ensures TrimEnd(s) == [] || !IsJsSpace(TrimEnd(s)[|TrimEnd(s)| - 1])
  {
    if s != [] && IsJsSpace(s[|s| - 1]) {
      TrimEndShape(s[..|s| - 1]);
      forall i | |TrimEnd(s)| <= i < |s| - 1 ensures IsJsSpace(s[i]) {
        assert s[i] == s[..|s| - 1][i];
      }
    }
  }

  /**
   * What `trim` promises: the result is the slice `s[a..b]` obtained by
   * dropping white space only, and it neither starts nor ends with white space.
   */
  lemma TrimIsSpaceFreeSlice(s: JsString)
    ensures exists a, b | 0 <= a <= b <= |s| ::
              (Trim(s) == s[a..b]
               && (forall i | 0 <= i < a :: IsJsSpace(s[i]))
               && (forall i | b <= i < |s| :: IsJsSpace(s[i])))
    ensures Trim(s) == [] || (!IsJsSpace(Trim(s)[0]) && !IsJsSpace(Trim(s)[|Trim(s)| - 1]))
  {
    var t := TrimStart(s);
    var r := TrimEnd(t);
    TrimStartShape(s);
    TrimEndShape(t);
    var a := |s| - |t|;
    var b := a + |r|;
    assert r == s[a..b];
    forall i | b <= i < |s| ensures IsJsSpace(s[i]) {
      assert s[i] == t[i - a];
    }
    if r != [] {
      assert r[0] == t[0];
    }
  }

  /** Trimming an already trimmed string changes nothing. */
  lemma {:induction false} TrimIdempotent(s: JsString)
    ensures Trim(Trim(s)) == Trim(s)
  {
    var r := Trim(s);
    if r != [] {
      TrimIsSpaceFreeSlice(s);
      assert TrimStart(r) == r;
      assert TrimEnd(r) == r;
    }
  }
}
