/**
 * The few JavaScript value semantics the page script relies on: values that may
 * be missing, the `||` default, `String.prototype.trim` and the UTF-16 length
 * that `String.prototype.length` reports.
 */
module Js {

  /** A value that may be missing: `None` stands for `undefined` or `null`. */
  datatype Option<+T> = None | Some(value: T)

  /** JavaScript's `v || fallback` where `v` is a string or missing; the empty string is falsy. */
  function Or(v: Option<string>, fallback: string): string
  {
    if v.Some? && v.value != "" then v.value else fallback
  }

  /** WhiteSpace and LineTerminator code points of ECMAScript (ECMA-262, sections "White Space" and "Line Terminators"). */
  predicate IsWhiteSpace(c: char)
  {
    || c == '\t' || c == '\n' || c == '\U{000B}' || c == '\U{000C}' || c == '\r' || c == ' '
    || c == '\U{00A0}' || c == '\U{1680}' || ('\U{2000}' <= c <= '\U{200A}')
    || c == '\U{2028}' || c == '\U{2029}' || c == '\U{202F}' || c == '\U{205F}'
    || c == '\U{3000}' || c == '\U{FEFF}'
  }

  predicate AllWhiteSpace(s: string)
  {
    forall i :: 0 <= i < |s| ==> IsWhiteSpace(s[i])
  }

  /** Drops leading white space (TrimStartSpec says what it keeps). */
  function TrimStart(s: string): string
  {
    if s != [] && IsWhiteSpace(s[0]) then TrimStart(s[1..]) else s
  }

  /** The result is a suffix of `s`, what was dropped is all white space, and it does not start with white space. */
  lemma {:induction false} TrimStartSpec(s: string)
    ensures var r := TrimStart(s);
      && |r| <= |s| && r == s[|s| - |r|..]
      && AllWhiteSpace(s[..|s| - |r|])
      && (r != [] ==> !IsWhiteSpace(r[0]))
  {
    if s != [] && IsWhiteSpace(s[0]) {
      var t := s[1..];
      TrimStartSpec(t);
      var r := TrimStart(s);
      assert r == TrimStart(t);
      assert s[..|s| - |r|] == [s[0]] + t[..|t| - |r|];
      assert r == t[|t| - |r|..] == s[|s| - |r|..];
    }
  }

  /** Drops trailing white space (TrimEndSpec says what it keeps). */
  function TrimEnd(s: string): string
  {
    if s != [] && IsWhiteSpace(s[|s| - 1]) then TrimEnd(s[..|s| - 1]) else s
  }

  /** The result is a prefix of `s`, what was dropped is all white space, and it does not end with white space. */
  lemma {:induction false} TrimEndSpec(s: string)
    ensures var r := TrimEnd(s);
      && |r| <= |s| && r == s[..|r|]
      && AllWhiteSpace(s[|r|..])
      && (r != [] ==> !IsWhiteSpace(r[|r| - 1]))
  {
    if s != [] && IsWhiteSpace(s[|s| - 1]) {
      var p := s[..|s| - 1];
      TrimEndSpec(p);
      var r := TrimEnd(s);
      assert s[|r|..] == p[|r|..] + [s[|s| - 1]];
    }
  }

  /** `String.prototype.trim`: white space removed from both ends (TrimSpec says what it keeps). */
  function Trim(s: string): (r: string)
    ensures |r| <= |s|
    ensures r == [] <==> AllWhiteSpace(s)
  {
    TrimSpec(s);
    TrimEnd(TrimStart(s))
  }

  /**
   * What `Trim` keeps (`TrimEnd(TrimStart(s))`) is the infix of `s` between two runs of white space, it
   * neither starts nor ends with white space, and it is empty exactly when
   * `s` is all white space.
   */
  lemma {:induction false} TrimSpec(s: string)
    ensures var r, k := TrimEnd(TrimStart(s)), |s| - |TrimStart(s)|;
      && 0 <= k && k + |r| <= |s| && r == s[k..k + |r|]
      && AllWhiteSpace(s[..k]) && AllWhiteSpace(s[k + |r|..])
      && (r != [] ==> !IsWhiteSpace(r[0]) && !IsWhiteSpace(r[|r| - 1]))
      && (r == [] <==> AllWhiteSpace(s))
  {
    var t := TrimStart(s);
    var r := TrimEnd(t);
    var k := |s| - |t|;
    TrimStartSpec(s);
    TrimEndSpec(t);
    assert t == s[k..];
    assert t[|r|..] == s[k + |r|..];
    if r == [] {
      assert s[..k] == s;
    } else {
      assert r[0] == t[0] == s[k];
    }
  }

  /** Trimming twice gives what trimming once gives. */
  lemma {:induction false} TrimIdempotent(s: string)
    ensures Trim(Trim(s)) == Trim(s)
  {
    var r := Trim(s);
    TrimSpec(s);
    if r != [] {
      TrimEndSpec(r);
      assert TrimStart(r) == r;
    }
  }

  /** `String.prototype.length`: code points above U+FFFF take two UTF-16 code units. */
  function Utf16Length(s: string): (n: nat)
    ensures |s| <= n <= 2 * |s|
  {
    if s == [] then 0 else (if s[0] as int > 0xFFFF then 2 else 1) + Utf16Length(s[1..])
  }
}
