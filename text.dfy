/** The string semantics of JavaScript that the page logic depends on. */
module Text {
  import opened Wrappers

  /** The characters String.prototype.trim removes: the WhiteSpace code points of
      ECMAScript (TAB, VT, FF, SP, NBSP, ZWNBSP and the Unicode category Zs) and its
      LineTerminator code points (LF, CR, LS, PS). */
  predicate IsWhitespace(c: char) {
    c == '\t' || c == '\n' || c == '\U{B}' || c == '\U{C}' || c == '\r' || c == ' '
    || c == '\U{A0}' || c == '\U{1680}' || ('\U{2000}' <= c <= '\U{200A}')
    || c == '\U{2028}' || c == '\U{2029}' || c == '\U{202F}' || c == '\U{205F}'
    || c == '\U{3000}' || c == '\U{FEFF}'
  }

  /** Every character of `s` is whitespace (so is every character of ""). */
  predicate IsBlank(s: string) {
    forall i :: 0 <= i < |s| ==> IsWhitespace(s[i])
  }

  /** JavaScript truthiness of a string field that may be absent:
      `undefined`, `null` and "" are falsy, every other string is truthy. */
  predicate Truthy(v: Option<string>) {
    v.Some? && v.value != ""
  }

  /** String.prototype.trim: `s` less its leading and trailing whitespace. The result is
      empty exactly for a blank string; otherwise it neither starts nor ends with
      whitespace. */
  function Trim(s: string): (r: string)
    ensures |r| <= |s|
    ensures r == "" <==> IsBlank(s)
    ensures r != "" ==> !IsWhitespace(r[0]) && !IsWhitespace(r[|r| - 1])
    decreases |s|
  {
    if s == "" then ""
    else if IsWhitespace(s[0]) then
      var r := Trim(s[1..]);
      assert IsBlank(s[1..]) ==> IsBlank(s) by {
        if IsBlank(s[1..]) {
          forall i | 0 < i < |s| ensures IsWhitespace(s[i]) { assert s[i] == s[1..][i - 1]; }
        }
      }
      r
    else if IsWhitespace(s[|s| - 1]) then
      Trim(s[..|s| - 1])
    else s
  }

  /** How many whitespace characters `trim` drops from the front of `s`. */
  function TrimOffset(s: string): nat
    decreases |s|
  {
    if s != "" && IsWhitespace(s[0]) then 1 + TrimOffset(s[1..]) else 0
  }

  /** `Trim(s)` is the part of `s` after its first `TrimOffset(s)` characters, and all it
      leaves out before and after that part is whitespace. */
  predicate DropsOnlyEnds(s: string) {
    var k, t := TrimOffset(s), Trim(s);
    k + |t| <= |s| && t == s[k..k + |t|] && IsBlank(s[..k]) && IsBlank(s[k + |t|..])
  }

  /** `trim` only drops whitespace, and only at the two ends. */
  lemma {:induction false} TrimIsSlice(s: string)
    ensures DropsOnlyEnds(s)
    decreases |s|
  {
    if s == "" {
    } else if IsWhitespace(s[0]) {
      TrimIsSlice(s[1..]);
      SliceAfterLeading(s);
    } else if IsWhitespace(s[|s| - 1]) {
      TrimIsSlice(s[..|s| - 1]);
      SliceAfterTrailing(s);
    } else {
      assert s[..0] == [] && s[|s|..] == [];
    }
  }

  /** The step of TrimIsSlice for a string that starts with whitespace. */
  lemma SliceAfterLeading(s: string)
    requires s != "" && IsWhitespace(s[0]) && DropsOnlyEnds(s[1..])
    ensures DropsOnlyEnds(s)
  {
    var u, t := s[1..], Trim(s);
    var k := TrimOffset(u);
    assert s[1 + k..1 + k + |t|] == u[k..k + |t|];
    assert s[..1 + k] == [s[0]] + u[..k];
    BlankConcat([s[0]], u[..k]);
    assert s[1 + k + |t|..] == u[k + |t|..];
  }

  /** The step of TrimIsSlice for a string that ends, but does not start, with whitespace. */
  lemma SliceAfterTrailing(s: string)
    requires s != "" && !IsWhitespace(s[0]) && IsWhitespace(s[|s| - 1]) && DropsOnlyEnds(s[..|s| - 1])
    ensures DropsOnlyEnds(s)
  {
    var v, t := s[..|s| - 1], Trim(s);
    assert TrimOffset(v) == 0 by { assert v[0] == s[0]; }
    assert s[..|t|] == v[..|t|];
    assert s[|t|..] == v[|t|..] + [s[|s| - 1]];
    BlankConcat(v[|t|..], [s[|s| - 1]]);
  }

  /** A concatenation is blank exactly when both parts are. */
  lemma BlankConcat(a: string, b: string)
    ensures IsBlank(a + b) <==> IsBlank(a) && IsBlank(b)
  {
    if IsBlank(a) && IsBlank(b) {
      forall i | 0 <= i < |a + b| ensures IsWhitespace((a + b)[i]) {
        if i >= |a| { assert (a + b)[i] == b[i - |a|]; }
      }
    }
    if IsBlank(a + b) {
      forall i | 0 <= i < |a| ensures IsWhitespace(a[i]) { assert (a + b)[i] == a[i]; }
      forall i | 0 <= i < |b| ensures IsWhitespace(b[i]) { assert (a + b)[|a| + i] == b[i]; }
    }
  }

  /** Trimming a trimmed string changes nothing. */
  lemma {:induction false} TrimIdempotent(s: string)
    ensures Trim(Trim(s)) == Trim(s)
  {
    var t := Trim(s);
    if t != "" {
      assert !IsWhitespace(t[0]) && !IsWhitespace(t[|t| - 1]);
    }
  }
}
