/**
 * The part of ECMAScript's string semantics the widget relies on:
 * `String.prototype.trim`, which strips leading and trailing white space
 * and line terminators.
 */
module JsText {

  /** ECMAScript WhiteSpace (TAB, VT, FF, SP, NBSP, ZWNBSP and every Zs space)
      and LineTerminator (LF, CR, LS, PS) code points: what `trim` removes. */
  predicate IsWhite(c: char)
  {
    || c == '\t' || c == '\n' || c == '\U{000B}' || c == '\U{000C}' || c == '\r'
    || c == ' ' || c == '\U{00A0}' || c == '\U{1680}'
    || ('\U{2000}' <= c <= '\U{200A}')
    || c == '\U{2028}' || c == '\U{2029}' || c == '\U{202F}' || c == '\U{205F}'
    || c == '\U{3000}' || c == '\U{FEFF}'
  }

  predicate AllWhite(s: string)
  {
    forall i :: 0 <= i < |s| ==> IsWhite(s[i])
  }

  /** Drops the leading white space: what is left is a suffix of `s` that
      starts with a non-white character, and everything dropped is white. */
  function TrimStart(s: string): (r: string)
    ensures |r| <= |s| && r == s[|s| - |r|..]
    ensures AllWhite(s[..|s| - |r|])
    ensures r != [] ==> !IsWhite(r[0])
  {
    if s == [] || !IsWhite(s[0]) then s else TrimStart(s[1..])
  }

  /** Drops the trailing white space: what is left is a prefix of `s` that
      ends with a non-white character, and everything dropped is white. */
  function TrimEnd(s: string): (r: string)
    ensures |r| <= |s| && r == s[..|r|]
    ensures AllWhite(s[|r|..])
    ensures r != [] ==> !IsWhite(r[|r| - 1])
  {
    if s == [] || !IsWhite(s[|s| - 1]) then s else TrimEnd(s[..|s| - 1])
  }

  /** `s.trim()`: the empty string exactly when `s` is all white space,
      otherwise a string that neither starts nor ends with white space.
      Which string it is, TrimOfPadded states. */
  function Trim(s: string): (r: string)
    ensures r == [] <==> AllWhite(s)
    ensures r != [] ==> !IsWhite(r[0]) && !IsWhite(r[|r| - 1])
    ensures |r| <= |s|
  {
    var t := TrimStart(s);
    assert AllWhite(s) <==> t == [] by {
      if t != [] { assert s[|s| - |t|] == t[0]; }
      if t == [] { assert s[..|s|] == s; }
    }
    var r := TrimEnd(t);
    assert r != [] ==> r[0] == t[0];
    r
  }

  /** Leading white space in front of a string that starts with a
      non-white character is exactly what TrimStart removes. */
  lemma {:induction false} TrimStartOfPadded(w: string, t: string)
    requires AllWhite(w)
    requires t == [] || !IsWhite(t[0])
    ensures TrimStart(w + t) == t
    decreases |w|
  {
    if w == [] {
      assert w + t == t;
    } else {
      assert (w + t)[1..] == w[1..] + t;
      TrimStartOfPadded(w[1..], t);
    }
  }

  /** Trailing white space behind a string that ends with a non-white
      character is exactly what TrimEnd removes. */
  lemma {:induction false} TrimEndOfPadded(t: string, w: string)
    requires AllWhite(w)
    requires t == [] || !IsWhite(t[|t| - 1])
    ensures TrimEnd(t + w) == t
    decreases |w|
  {
    if w == [] {
      assert t + w == t;
    } else {
      assert (t + w)[..|t + w| - 1] == t + w[..|w| - 1];
      TrimEndOfPadded(t, w[..|w| - 1]);
    }
  }

  /** Trim is characterised by what it keeps: padding a string that has no
      white space at either end, then trimming, gives that string back. */
  lemma TrimOfPadded(front: string, core: string, back: string)
    requires AllWhite(front) && AllWhite(back)
    requires core == [] || (!IsWhite(core[0]) && !IsWhite(core[|core| - 1]))
    ensures Trim(front + core + back) == core
  {
    if core == [] {
      assert front + core + back == front + back;
      assert AllWhite(front + back) by {
        forall i | 0 <= i < |front + back| ensures IsWhite((front + back)[i]) {
          if i >= |front| { assert (front + back)[i] == back[i - |front|]; }
        }
      }
    } else {
      assert front + core + back == front + (core + back);
      TrimStartOfPadded(front, core + back);
      TrimEndOfPadded(core, back);
    }
  }

  /** Trimming twice is trimming once. */
  lemma TrimIdempotent(s: string)
    ensures Trim(Trim(s)) == Trim(s)
  {
  }
}
