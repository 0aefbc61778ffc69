/**
 * The few JavaScript string operations the console relies on, stated over
 * Dafny strings: white space as ECMA-262 defines it, `trimStart`, `trimEnd`,
 * `trim`, `indexOf`, `includes`, element 1 of `split`, and `String(n)` for an
 * integral number.
 */
module JsString {
  import opened Wrappers

  /**
   * The WhiteSpace and LineTerminator code points of ECMA-262 (sections 12.2
   * and 12.3): TAB, VT, FF, SPACE, NBSP, ZWNBSP, the other space separators of
   * Unicode category Zs, LF, CR, LINE SEPARATOR and PARAGRAPH SEPARATOR. Both
   * `String.prototype.trim` and `parseInt` skip exactly these.
   */
  predicate IsWhitespace(c: char) {
    || c == '\t' || c == '\U{B}' || c == '\U{C}' || c == ' '
    || c == '\U{A0}' || c == '\U{FEFF}' || c == '\U{1680}'
    || ('\U{2000}' <= c <= '\U{200A}')
    || c == '\U{202F}' || c == '\U{205F}' || c == '\U{3000}'
    || c == '\n' || c == '\r' || c == '\U{2028}' || c == '\U{2029}'
  }

  predicate AllWhitespace(s: string) {
    forall i :: 0 <= i < |s| ==> IsWhitespace(s[i])
  }

  /** The number of white-space characters at the start of `s`. */
  function LeadingWhitespace(s: string): (n: nat)
    ensures n <= |s|
    ensures forall i :: 0 <= i < n ==> IsWhitespace(s[i])
    ensures n < |s| ==> !IsWhitespace(s[n])
  {
    if s != [] && IsWhitespace(s[0]) then 1 + LeadingWhitespace(s[1..]) else 0
  }

  /** The number of white-space characters at the end of `s`. */
  function TrailingWhitespace(s: string): (n: nat)
    ensures n <= |s|
    ensures forall i :: |s| - n <= i < |s| ==> IsWhitespace(s[i])
    ensures n < |s| ==> !IsWhitespace(s[|s| - n - 1])
  {
    if s != [] && IsWhitespace(s[|s| - 1]) then 1 + TrailingWhitespace(s[..|s| - 1]) else 0
  }

  /** `s.trimStart()`: `s` without its leading white space. */
  function TrimStart(s: string): string {
    s[LeadingWhitespace(s)..]
  }

  /** `s.trimEnd()`: `s` without its trailing white space. */
  function TrimEnd(s: string): string {
    s[..|s| - TrailingWhitespace(s)]
  }

  /**
   * `s.trim()`: `s` without the white space at either end. It is empty exactly
   * when `s` is all white space, and otherwise starts and ends with a
   * character that is not white space.
   */
  function Trim(s: string): (r: string)
    ensures |r| <= |s|
    ensures r == [] <==> AllWhitespace(s)
    ensures r == [] || (!IsWhitespace(r[0]) && !IsWhitespace(r[|r| - 1]))
  {
    TrimEnd(TrimStart(s))
  }

  /**
   * `s.trim()` is the infix of `s` that starts after the leading white space
   * and is followed by white space only.
   */
  lemma TrimIsInfix(s: string)
    ensures var k := LeadingWhitespace(s); var r := Trim(s);
      && k + |r| <= |s| && s[k..k + |r|] == r
      && forall i :: k + |r| <= i < |s| ==> IsWhitespace(s[i])
  {
    var k := LeadingWhitespace(s);
    var t := s[k..];
    var n := |t| - TrailingWhitespace(t);
    assert Trim(s) == t[..n];
    assert s[k..k + n] == t[..n];
    forall i | k + n <= i < |s|
      ensures IsWhitespace(s[i])
    {
      assert s[i] == t[i - k];
    }
  }

  /** A string with white space in front has that many more leading white-space characters. */
  lemma {:induction false} LeadingWhitespaceOf(w: string, s: string)
    requires AllWhitespace(w)
    ensures LeadingWhitespace(w + s) == |w| + LeadingWhitespace(s)
  {
    if w == [] {
      assert w + s == s;
    } else {
      assert (w + s)[0] == w[0] && (w + s)[1..] == w[1..] + s;
      LeadingWhitespaceOf(w[1..], s);
    }
  }

  /** White space in front of a string does not change its `trimStart()`. */
  lemma TrimStartSkipsWhitespace(w: string, s: string)
    requires AllWhitespace(w)
    ensures TrimStart(w + s) == TrimStart(s)
  {
    LeadingWhitespaceOf(w, s);
    assert (w + s)[|w|..] == s;
  }

  /** White space in front of a string does not change its `trim()`. */
  lemma TrimSkipsWhitespace(w: string, s: string)
    requires AllWhitespace(w)
    ensures Trim(w + s) == Trim(s)
  {
    TrimStartSkipsWhitespace(w, s);
  }

  predicate OccursAt(s: string, p: string, i: nat) {
    i + |p| <= |s| && s[i..i + |p|] == p
  }

  /** `s.indexOf(p, k)`: the first position at or after `k` where `p` occurs in `s`. */
  function IndexFrom(s: string, p: string, k: nat): (r: Option<nat>)
    requires k <= |s|
    ensures r.Some? ==> k <= r.value <= |s| && OccursAt(s, p, r.value)
    ensures r.Some? ==> forall j :: k <= j < r.value ==> !OccursAt(s, p, j)
    ensures r.None? ==> forall j :: k <= j <= |s| ==> !OccursAt(s, p, j)
    decreases |s| - k
  {
    if OccursAt(s, p, k) then Some(k)
    else if k == |s| then None
    else IndexFrom(s, p, k + 1)
  }

  /** `s.indexOf(p)`. */
  function IndexOf(s: string, p: string): Option<nat> {
    IndexFrom(s, p, 0)
  }

  /** `s.includes(p)`: `p` occurs somewhere in `s`. */
  predicate Includes(s: string, p: string) {
    IndexOf(s, p).Some?
  }

  /** An occurrence of `p` anywhere in `s` is enough for `s.includes(p)`, and necessary. */
  lemma IncludesAt(s: string, p: string, i: nat)
    requires OccursAt(s, p, i)
    ensures Includes(s, p)
  {
  }

  /** An occurrence of `p` in `s` is still one, shifted, once `a` is put in front. */
  lemma OccursAfterPrefix(a: string, s: string, p: string, j: nat)
    requires OccursAt(s, p, j)
    ensures OccursAt(a + s, p, |a| + j)
  {
    assert (a + s)[|a| + j..|a| + j + |p|] == s[j..j + |p|];
  }

  /**
   * Putting in front of `s` a text in which the first character of `p` never
   * appears changes nothing about whether `p` occurs.
   */
  lemma IncludesPastPrefix(a: string, s: string, p: string)
    requires p != []
    requires forall k :: 0 <= k < |a| ==> a[k] != p[0]
    ensures Includes(a + s, p) <==> Includes(s, p)
  {
    if Includes(s, p) {
      var j := IndexOf(s, p).value;
      OccursAfterPrefix(a, s, p, j);
      IncludesAt(a + s, p, |a| + j);
    }
    if Includes(a + s, p) {
      var i := IndexOf(a + s, p).value;
      assert (a + s)[i] == p[0];
      assert i >= |a|;
      SliceOfSuffix(a, s, i, |p|);
      IncludesAt(s, p, i - |a|);
    }
  }

  /** A slice of `a + s` that starts after `a` is a slice of `s`. */
  lemma SliceOfSuffix(a: string, s: string, i: nat, n: nat)
    requires |a| <= i && i + n <= |a| + |s|
    ensures (a + s)[i..i + n] == s[i - |a|..i - |a| + n]
  {
    var t := a + s;
    var x, y := t[i..i + n], s[i - |a|..i - |a| + n];
    forall k | 0 <= k < n
      ensures x[k] == y[k]
    {
      assert t[i + k] == s[i - |a| + k];
    }
    assert x == y;
  }

  /** Whatever occurs in an infix of `s` occurs in `s`. */
  lemma IncludesInInfix(s: string, k: nat, n: nat, p: string)
    requires k + n <= |s| && Includes(s[k..k + n], p)
    ensures Includes(s, p)
  {
    var j := IndexOf(s[k..k + n], p).value;
    assert s[k + j..k + j + |p|] == s[k..k + n][j..j + |p|];
    IncludesAt(s, p, k + j);
  }

  /** Trimming cannot bring about an occurrence that was not there. */
  lemma TrimKeepsAbsence(s: string, p: string)
    requires !Includes(s, p)
    ensures !Includes(Trim(s), p)
  {
    TrimIsInfix(s);
    if Includes(Trim(s), p) {
      IncludesInInfix(s, LeadingWhitespace(s), |Trim(s)|, p);
    }
  }

  /**
   * `s.split(sep)[1]` for a non-empty `sep` that occurs in `s`: the text that
   * follows the first occurrence of `sep`, up to the first occurrence after
   * it or to the end of `s`.
   */
  function SplitSecond(s: string, sep: string): (r: string)
    requires sep != [] && Includes(s, sep)
    ensures var rest := s[IndexOf(s, sep).value + |sep|..];
      && r <= rest
      && !Includes(r, sep)
      && (r == rest || OccursAt(rest, sep, |r|))
      && (r != rest ==> IndexOf(rest, sep) == Some(|r|))
  {
    var rest := s[IndexOf(s, sep).value + |sep|..];
    match IndexOf(rest, sep)
    case None => rest
    case Some(j) => PrefixBeforeFirstOccurrence(rest, sep, j); rest[..j]
  }

  /** The text in front of the first occurrence of `p` does not contain `p`. */
  lemma PrefixBeforeFirstOccurrence(s: string, p: string, j: nat)
    requires p != [] && IndexOf(s, p) == Some(j)
    ensures !Includes(s[..j], p)
  {
    if Includes(s[..j], p) {
      var t := IndexOf(s[..j], p).value;
      assert s[t..t + |p|] == s[..j][t..t + |p|];
      assert OccursAt(s, p, t) && t < j;
    }
  }

  /** A decimal digit character, `d < 10`. */
  function DigitChar(d: nat): (c: char)
    requires d < 10
    ensures '0' <= c <= '9'
  {
    (48 + d) as char
  }

  /**
   * `String(n)` for a natural number below 10^21: its decimal digits, with no
   * leading zero except for zero itself.
   */
  function NatToString(n: nat): (r: string)
    ensures r != [] && forall i :: 0 <= i < |r| ==> '0' <= r[i] <= '9'
    ensures r[0] == '0' <==> n == 0
  {
    if n < 10 then [DigitChar(n)] else NatToString(n / 10) + [DigitChar(n % 10)]
  }

  /** `String(n)` (and the template `${n}`) for an integral number below 10^21 in magnitude. */
  function IntToString(n: int): (r: string)
    ensures r != [] && (r[0] == '-' <==> n < 0)
  {
    if n < 0 then "-" + NatToString(-n) else NatToString(n)
  }
}
