/**
 * The part of ECMAScript regular expressions the program uses: `re.test(s)`
 * for a pattern of the form `^B$`, where the body `B` is given as the set of
 * code-unit strings it matches exactly. Without the `m` flag, `^` matches only
 * at the start of the input and `$` only at its end; with it, `^` also matches
 * just after a line terminator and `$` just before one.
 *
 * `test` succeeds iff some match exists, whatever the search order, so it is
 * modelled as: some slice `s[p..q]` is matched by `B` with `^` allowed at `p`
 * and `$` allowed at `q`. The `g` flag only moves the starting point of a
 * search by the regex object's `lastIndex`; every regex of the program is a
 * literal evaluated afresh before its single `test`, so `lastIndex` is 0.
 */
module JsRegex {
  import opened JsText

  /** Where `^` can match. */
  predicate StartAnchorAt(s: JsString, p: int, multiline: bool)
    requires 0 <= p <= |s|
  {
    p == 0 || (multiline && IsLineTerminator(s[p - 1]))
  }

  /** Where `$` can match. */
  predicate EndAnchorAt(s: JsString, q: int, multiline: bool)
    requires 0 <= q <= |s|
  {
    q == |s| || (multiline && IsLineTerminator(s[q]))
  }

  /** `/^B$/.test(s)`, with the `m` flag when `multiline` holds. */
  predicate TestAnchored(body: JsString -> bool, s: JsString, multiline: bool) {
    exists p, q | 0 <= p <= q <= |s| ::
      StartAnchorAt(s, p, multiline) && EndAnchorAt(s, q, multiline) && body(s[p..q])
  }

  /** The body `[C]+`: one or more code units of the class `C`. */
  predicate OneOrMore(inClass: CodeUnit -> bool, t: JsString) {
    |t| > 0 && forall i | 0 <= i < |t| :: inClass(t[i])
  }

  /** Without the `m` flag, an anchored pattern must match the whole input. */
  lemma WholeInputMatch(body: JsString -> bool, s: JsString)
    ensures TestAnchored(body, s, false) <==> body(s)
  {
    if body(s) {
      assert StartAnchorAt(s, 0, false) && EndAnchorAt(s, |s|, false) && s[0..|s|] == s;
    }
    if TestAnchored(body, s, false) {
      var p, q :| 0 <= p <= q <= |s| && StartAnchorAt(s, p, false) && EndAnchorAt(s, q, false) && body(s[p..q]);
      assert s[p..q] == s;
    }
  }

  /**
   * With the `m` flag, a body that never matches a line terminator matches
   * exactly one whole line: the pattern succeeds iff some line of `s` (a
   * maximal run of code units between line terminators) is matched by the body.
   */
  lemma MultilineMatchesALine(body: JsString -> bool, s: JsString)
    requires forall t | body(t) :: forall i | 0 <= i < |t| :: !IsLineTerminator(t[i])
    ensures TestAnchored(body, s, true) <==>
      exists p, q | 0 <= p <= q <= |s| :: IsLine(s, p, q) && body(s[p..q])
  {
    if TestAnchored(body, s, true) {
      var p, q :| 0 <= p <= q <= |s| && StartAnchorAt(s, p, true) && EndAnchorAt(s, q, true) && body(s[p..q]);
      forall i | p <= i < q ensures !IsLineTerminator(s[i]) {
        assert s[i] == s[p..q][i - p];
      }
      assert IsLine(s, p, q);
    }
  }

  /** `s[p..q]` is a line of `s`: bounded by the input's ends or line terminators, none inside. */
  predicate IsLine(s: JsString, p: int, q: int)
    requires 0 <= p <= q <= |s|
  {
    StartAnchorAt(s, p, true) && EndAnchorAt(s, q, true) &&
    forall i | p <= i < q :: !IsLineTerminator(s[i])
  }
}
