/** String operations of JavaScript that the intake pipeline relies on:
    `toLowerCase` (ASCII letters only), `includes`, `trim`, `split("\n")`,
    `join("\n")` and the decimal rendering of an integer. */
module JsText {

  /** Upper-case ASCII letters become lower-case; every other character is kept. */
  function LowerChar(c: char): (r: char)
    ensures !('A' <= r <= 'Z')
    ensures r == c <==> !('A' <= c <= 'Z')
  {
    if 'A' <= c <= 'Z' then (c as int + 32) as char else c
  }

  /** `s.toLowerCase()` restricted to ASCII letters. */
  function Lower(s: string): (r: string)
    ensures |r| == |s|
    ensures forall i :: 0 <= i < |r| ==> !('A' <= r[i] <= 'Z')
  {
    seq(|s|, i requires 0 <= i < |s| => LowerChar(s[i]))
  }

  /** Lower-casing a lower-cased text changes nothing. */
  lemma LowerIdempotent(s: string)
    ensures Lower(Lower(s)) == Lower(s)
  {
  }

  lemma LowerAppend(a: string, b: string)
    ensures Lower(a + b) == Lower(a) + Lower(b)
  {
  }

  /** The pattern `p` occurs in `s` starting at index `i`. */
  predicate OccursAt(s: string, p: string, i: int)
  {
    0 <= i && i + |p| <= |s| && s[i..i + |p|] == p
  }

  /** `s.includes(p)`. */
  predicate Contains(s: string, p: string)
  {
    exists i | 0 <= i <= |s| - |p| :: OccursAt(s, p, i)
  }

  /** A string that starts with `p` contains `p`. */
  lemma ContainsPrefix(s: string, p: string)
    requires p <= s
    ensures Contains(s, p)
  {
    assert OccursAt(s, p, 0);
  }

  /** Whoever contains `p` also contains every prefix of `p`. */
  lemma ContainsShorter(s: string, p: string, q: string)
    requires q <= p && Contains(s, p)
    ensures Contains(s, q)
  {
    var i :| 0 <= i <= |s| - |p| && OccursAt(s, p, i);
    assert s[i..i + |q|] == s[i..i + |p|][..|q|];
    assert OccursAt(s, q, i);
  }

  /** An occurrence in `b` is an occurrence in `a + b`, shifted by `|a|`. */
  lemma ContainsRight(a: string, b: string, p: string)
    requires Contains(b, p)
    ensures Contains(a + b, p)
  {
    var i :| 0 <= i <= |b| - |p| && OccursAt(b, p, i);
    assert (a + b)[|a| + i..|a| + i + |p|] == b[i..i + |p|];
    assert OccursAt(a + b, p, |a| + i);
  }

  /** `Array.prototype.some(pattern => s.includes(pattern))`. */
  function AnyOccurs(s: string, patterns: seq<string>): (r: bool)
    ensures r <==> exists k :: 0 <= k < |patterns| && Contains(s, patterns[k])
  {
    if |patterns| == 0 then false
    else Contains(s, patterns[0]) || AnyOccurs(s, patterns[1..])
  }

  /** ECMAScript WhiteSpace and LineTerminator code points, which `trim` removes. */
  const WhiteSpace: set<char> := {
    ' ', '\t', '\n', '\U{B}', '\U{C}', '\r', '\U{A0}', '\U{1680}',
    '\U{2000}', '\U{2001}', '\U{2002}', '\U{2003}', '\U{2004}', '\U{2005}',
    '\U{2006}', '\U{2007}', '\U{2008}', '\U{2009}', '\U{200A}',
    '\U{2028}', '\U{2029}', '\U{202F}', '\U{205F}', '\U{3000}', '\U{FEFF}'
  }

  predicate IsWhite(c: char)
  {
    c in WhiteSpace
  }

  predicate AllWhite(s: string)
  {
    forall i :: 0 <= i < |s| ==> IsWhite(s[i])
  }

  /** The number of leading white-space characters. */
  function LeadingWhite(s: string): (k: nat)
    ensures k <= |s|
    ensures forall i :: 0 <= i < k ==> IsWhite(s[i])
    ensures k == |s| || !IsWhite(s[k])
  {
    if |s| > 0 && IsWhite(s[0]) then 1 + LeadingWhite(s[1..]) else 0
  }

  /** The number of trailing white-space characters. */
  function TrailingWhite(s: string): (k: nat)
    ensures k <= |s|
    ensures forall i :: |s| - k <= i < |s| ==> IsWhite(s[i])
    ensures k == |s| || !IsWhite(s[|s| - 1 - k])
  {
    if |s| > 0 && IsWhite(s[|s| - 1]) then 1 + TrailingWhite(s[..|s| - 1]) else 0
  }

  /** `s.trim()`: the leading white space is cut, then the trailing white
      space of what is left. */
  function Trim(s: string): string
  {
    var i := LeadingWhite(s);
    s[i..|s| - TrailingWhite(s[i..])]
  }

  /** The leading white space is all white. */
  lemma LeadingPartWhite(s: string)
    ensures AllWhite(s[..LeadingWhite(s)])
  {
    var u := s[..LeadingWhite(s)];
    forall k | 0 <= k < |u|
      ensures IsWhite(u[k])
    {
      assert u[k] == s[k];
    }
  }

  /** The trailing white space is all white. */
  lemma TrailingPartWhite(t: string)
    ensures AllWhite(t[|t| - TrailingWhite(t)..])
  {
    var j := TrailingWhite(t);
    var u := t[|t| - j..];
    forall k | 0 <= k < |u|
      ensures IsWhite(u[k])
    {
      assert u[k] == t[|t| - j + k];
    }
  }

  /** Neither end of what `trim` keeps is white. */
  lemma TrimEnds(s: string)
    ensures Trim(s) == [] || (!IsWhite(Trim(s)[0]) && !IsWhite(Trim(s)[|Trim(s)| - 1]))
  {
    var i := LeadingWhite(s);
    var t := s[i..];
    var j := TrailingWhite(t);
    var r := Trim(s);
    if r != [] {
      assert r[0] == t[0] == s[i];
      assert r[|r| - 1] == t[|t| - 1 - j];
    }
  }

  /** What `trim` keeps is a contiguous part of `s` with white space only
      around it, and neither end of it is white. */
  lemma TrimShape(s: string)
    ensures exists i :: 0 <= i <= |s| - |Trim(s)| && Trim(s) == s[i..i + |Trim(s)|] &&
                        AllWhite(s[..i]) && AllWhite(s[i + |Trim(s)|..])
    ensures Trim(s) == [] || (!IsWhite(Trim(s)[0]) && !IsWhite(Trim(s)[|Trim(s)| - 1]))
  {
    var i := LeadingWhite(s);
    var t := s[i..];
    var j := TrailingWhite(t);
    var r := Trim(s);
    LeadingPartWhite(s);
    TrailingPartWhite(t);
    TrimEnds(s);
    assert i + |r| == |s| - j;
    assert s[i + |r|..] == t[|t| - j..];
  }

  /** `trim` only removes characters. */
  lemma TrimChars(s: string)
    ensures forall c :: c in Trim(s) ==> c in s
  {
    var i := LeadingWhite(s);
    var e := |s| - TrailingWhite(s[i..]);
    SliceChars(s, i, e);
  }

  lemma SliceChars(s: string, i: int, e: int)
    requires 0 <= i <= e <= |s|
    ensures forall c :: c in s[i..e] ==> c in s
  {
    var u := s[i..e];
    forall k | 0 <= k < |u|
      ensures u[k] in s
    {
      assert u[k] == s[i + k];
    }
  }

  lemma {:induction false} LeadingAllWhite(s: string)
    requires AllWhite(s)
    ensures LeadingWhite(s) == |s|
  {
    if |s| > 0 {
      LeadingAllWhite(s[1..]);
    }
  }

  /** A string is blank after trimming exactly when it is all white space. */
  lemma TrimBlank(s: string)
    ensures Trim(s) == "" <==> AllWhite(s)
  {
    var i := LeadingWhite(s);
    var t := s[i..];
    var j := TrailingWhite(t);
    if AllWhite(s) {
      LeadingAllWhite(s);
    }
    if Trim(s) == "" {
      assert |t| == j;
    }
  }

  /** Trimming twice is trimming once. */
  lemma TrimIdempotent(s: string)
    ensures Trim(Trim(s)) == Trim(s)
  {
    var r := Trim(s);
    TrimShape(s);
    assert LeadingWhite(r) == 0;
    assert TrailingWhite(r) == 0;
  }

  /** `s.split("\n")`: always at least one piece, no piece holds a newline. */
  function SplitLines(s: string): (r: seq<string>)
    ensures |r| >= 1
    ensures forall k :: 0 <= k < |r| ==> '\n' !in r[k]
  {
    if |s| == 0 then [""]
    else if s[0] == '\n' then [""] + SplitLines(s[1..])
    else
      var rest := SplitLines(s[1..]);
      [[s[0]] + rest[0]] + rest[1..]
  }

  /** `parts.join("\n")`. */
  function JoinLines(parts: seq<string>): string
  {
    if |parts| == 0 then ""
    else if |parts| == 1 then parts[0]
    else parts[0] + "\n" + JoinLines(parts[1..])
  }

  /** Joining the pieces of a split gives back the text. */
  lemma {:induction false} JoinSplit(s: string)
    ensures JoinLines(SplitLines(s)) == s
  {
    if |s| == 0 {
    } else if s[0] == '\n' {
      JoinSplit(s[1..]);
    } else {
      var rest := SplitLines(s[1..]);
      JoinSplit(s[1..]);
      if |rest| == 1 {
      } else {
        assert JoinLines(SplitLines(s)) == [s[0]] + rest[0] + "\n" + JoinLines(rest[1..]);
        assert JoinLines(rest) == rest[0] + "\n" + JoinLines(rest[1..]);
      }
    }
  }

  /** Splitting a join of newline-free pieces gives back the pieces. */
  lemma {:induction false} SplitJoin(parts: seq<string>)
    requires |parts| >= 1
    requires forall k :: 0 <= k < |parts| ==> '\n' !in parts[k]
    ensures SplitLines(JoinLines(parts)) == parts
  {
    if |parts| == 1 {
      SplitNoNewline(parts[0]);
    } else {
      SplitJoin(parts[1..]);
      SplitPrefix(parts[0], JoinLines(parts[1..]));
    }
  }

  lemma {:induction false} SplitNoNewline(s: string)
    requires '\n' !in s
    ensures SplitLines(s) == [s]
  {
    if |s| > 0 {
      assert s[0] in s;
      assert forall c :: c in s[1..] ==> c in s;
      SplitNoNewline(s[1..]);
      assert [s[0]] + s[1..] == s;
    }
  }

  lemma {:induction false} SplitPrefix(a: string, b: string)
    requires '\n' !in a
    ensures SplitLines(a + "\n" + b) == [a] + SplitLines(b)
  {
    if |a| == 0 {
      assert a + "\n" + b == "\n" + b;
      assert ("\n" + b)[1..] == b;
    } else {
      assert (a + "\n" + b)[0] == a[0];
      assert (a + "\n" + b)[1..] == a[1..] + "\n" + b;
      assert a[0] in a;
      assert forall c :: c in a[1..] ==> c in a;
      SplitPrefix(a[1..], b);
      assert [a[0]] + a[1..] == a;
    }
  }

  function DigitChar(d: int): (c: char)
    requires 0 <= d < 10
    ensures '0' <= c <= '9'
  {
    "0123456789"[d]
  }

  predicate IsDigit(c: char)
  {
    '0' <= c <= '9'
  }

  /** `String(n)` for an integer: a minus sign for negatives, then decimal digits. */
  function Dec(n: int): (r: string)
    ensures |r| >= 1
    ensures n >= 0 ==> forall k :: 0 <= k < |r| ==> IsDigit(r[k])
    ensures n < 0 ==> r[0] == '-' && forall k :: 1 <= k < |r| ==> IsDigit(r[k])
    decreases if n < 0 then 1 else 0, if n < 0 then -n else n
  {
    if n < 0 then "-" + Dec(-n)
    else if n < 10 then [DigitChar(n)]
    else Dec(n / 10) + [DigitChar(n % 10)]
  }
}
