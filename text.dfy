/**
  The few .NET string primitives the generator relies on: `String.Replace` with a
  one-character pattern, `Char.IsWhiteSpace`, `String.Trim`, `String.IsNullOrWhiteSpace`,
  `String.Join` and the decimal formatting of a non-negative `int`.
 */
module Text {
  import opened Wrappers

  /** Appending to a concatenation: stated once so that the loops that grow output need not rediscover it. */
  lemma ConcatAssoc<T>(a: seq<T>, b: seq<T>, c: seq<T>)
    ensures (a + b) + c == a + (b + c)
  {
  }

  /** A prefix of the first part is a prefix of the concatenation. */
  lemma PrefixOfAppend<T>(a: seq<T>, b: seq<T>, m: nat)
    requires m <= |a|
    ensures (a + b)[..m] == a[..m]
  {
  }

  // ---------------------------------------------------------------------------
  // Replace

  /** `s.Replace(c, rep)`: every occurrence of the character `c` becomes `rep`. */
  function ReplaceChar(s: string, c: char, rep: string): (r: string)
    ensures c !in rep ==> c !in r
    ensures c !in s ==> r == s
  {
    if s == [] then []
    else (if s[0] == c then rep else [s[0]]) + ReplaceChar(s[1..], c, rep)
  }

  /** Replacing inside a concatenation replaces inside each part. */
  lemma {:induction false} ReplaceCharAppend(a: string, b: string, c: char, rep: string)
    ensures ReplaceChar(a + b, c, rep) == ReplaceChar(a, c, rep) + ReplaceChar(b, c, rep)
  {
    if a == [] {
      assert a + b == b;
    } else {
      assert (a + b)[0] == a[0];
      assert (a + b)[1..] == a[1..] + b;
      ReplaceCharAppend(a[1..], b, c, rep);
    }
  }

  /** A one-character replacement keeps the length and changes exactly the positions holding `c`. */
  lemma {:induction false} ReplaceCharPointwise(s: string, c: char, d: char)
    ensures |ReplaceChar(s, c, [d])| == |s|
    ensures forall k :: 0 <= k < |s| ==>
      ReplaceChar(s, c, [d])[k] == (if s[k] == c then d else s[k])
  {
    if s != [] {
      ReplaceCharPointwise(s[1..], c, d);
      var r := ReplaceChar(s, c, [d]);
      assert r == [if s[0] == c then d else s[0]] + ReplaceChar(s[1..], c, [d]);
      forall k | 0 < k < |s|
        ensures r[k] == (if s[k] == c then d else s[k])
      {
        assert r[k] == ReplaceChar(s[1..], c, [d])[k - 1];
        assert s[1..][k - 1] == s[k];
      }
    }
  }

  // ---------------------------------------------------------------------------
  // White space and Trim

  /** `Char.IsWhiteSpace`: the Unicode separators plus the control characters U+0009..U+000D, U+0085. */
  predicate IsWhiteSpace(ch: char) {
    ch == ' ' || ('\t' <= ch <= '\r') || ch == '\U{85}' || ch == '\U{A0}' || ch == '\U{1680}'
    || ('\U{2000}' <= ch <= '\U{200A}') || ch == '\U{2028}' || ch == '\U{2029}'
    || ch == '\U{202F}' || ch == '\U{205F}' || ch == '\U{3000}'
  }

  predicate AllWhiteSpace(s: string) {
    forall k :: 0 <= k < |s| ==> IsWhiteSpace(s[k])
  }

  /** `String.IsNullOrWhiteSpace`. */
  predicate IsNullOrWhiteSpace(s: Option<string>) {
    s.None? || AllWhiteSpace(s.value)
  }

  /** The number of white-space characters at the start of `s`. */
  function LeadingWhiteSpace(s: string): (n: nat)
    ensures n <= |s| && AllWhiteSpace(s[..n])
    ensures n < |s| ==> !IsWhiteSpace(s[n])
  {
    if s == [] || !IsWhiteSpace(s[0]) then 0
    else
      var n := LeadingWhiteSpace(s[1..]);
      assert s[..n + 1] == [s[0]] + s[1..][..n];
      n + 1
  }

  /** The number of white-space characters at the end of `s`. */
  function TrailingWhiteSpace(s: string): (n: nat)
    ensures n <= |s| && AllWhiteSpace(s[|s| - n..])
    ensures n < |s| ==> !IsWhiteSpace(s[|s| - n - 1])
  {
    if s == [] || !IsWhiteSpace(s[|s| - 1]) then 0
    else
      var init := s[..|s| - 1];
      var n := TrailingWhiteSpace(init);
      var tail := s[|s| - (n + 1)..];
      assert AllWhiteSpace(tail) by {
        forall k | 0 <= k < |tail| ensures IsWhiteSpace(tail[k]) {
          if k < n {
            assert tail[k] == init[|init| - n..][k];
          }
        }
      }
      assert n + 1 < |s| ==> s[|s| - (n + 1) - 1] == init[|init| - n - 1];
      n + 1
  }

  /** Drops the leading white space. */
  function TrimStart(s: string): (r: string)
    ensures |r| <= |s| && r == s[|s| - |r|..]
    ensures r == [] || !IsWhiteSpace(r[0])
    ensures AllWhiteSpace(s[..|s| - |r|])
  {
    s[LeadingWhiteSpace(s)..]
  }

  /** Drops the trailing white space. */
  function TrimEnd(s: string): (r: string)
    ensures |r| <= |s| && r == s[..|r|]
    ensures r == [] || !IsWhiteSpace(r[|r| - 1])
    ensures AllWhiteSpace(s[|r|..])
  {
    s[..|s| - TrailingWhiteSpace(s)]
  }

  /**
    `String.Trim`: the text between the leading and the trailing white space, found as a
    start and an end index; only a blank text trims to "".
   */
  function Trim(s: string): (r: string)
    ensures |r| <= |s|
    ensures r == [] || (!IsWhiteSpace(r[0]) && !IsWhiteSpace(r[|r| - 1]))
    ensures r == [] <==> AllWhiteSpace(s)
  {
    TrimBlank(s);
    TrimEnd(TrimStart(s))
  }

  /** Trimming both ends leaves nothing exactly when the text is all white space. */
  lemma TrimBlank(s: string)
    ensures TrimEnd(TrimStart(s)) == [] <==> AllWhiteSpace(s)
  {
    var t := TrimStart(s);
    var r := TrimEnd(t);
    var n := |s| - |t|;
    assert t == s[n..];
    if r == [] {
      assert t[|r|..] == t;
      assert s[..n] == s;
    } else {
      assert r[0] == t[0] == s[n];
      assert !IsWhiteSpace(s[n]);
    }
  }

  /**
    The trimmed text is the middle of the input: it starts where the leading white
    space ends, and what is cut before and after it is white space.
   */
  lemma TrimSlice(s: string)
    ensures var a := |s| - |TrimStart(s)|; var r := Trim(s);
      && a + |r| <= |s|
      && r == s[a..a + |r|]
      && AllWhiteSpace(s[..a])
      && AllWhiteSpace(s[a + |r|..])
  {
    var t := TrimStart(s);
    var a := |s| - |t|;
    var r := Trim(s);
    assert t == s[a..];
    assert r == t[..|r|];
    assert s[a..][..|r|] == s[a..a + |r|];
    assert t[|r|..] == s[a + |r|..];
  }

  // ---------------------------------------------------------------------------
  // Join

  /** `String.Join(sep, xs)`. */
  function Join(xs: seq<string>, sep: string): string {
    if xs == [] then ""
    else if |xs| == 1 then xs[0]
    else xs[0] + sep + Join(xs[1..], sep)
  }

  /** A join of texts of which the first is not blank is not blank either. */
  lemma JoinNotBlank(xs: seq<string>, sep: string)
    requires xs != [] && !AllWhiteSpace(xs[0])
    ensures !AllWhiteSpace(Join(xs, sep))
  {
    var k :| 0 <= k < |xs[0]| && !IsWhiteSpace(xs[0][k]);
    if |xs| > 1 {
      assert Join(xs, sep)[k] == xs[0][k];
    }
  }

  // ---------------------------------------------------------------------------
  // Decimal formatting of a non-negative int

  function DigitChar(d: nat): (ch: char)
    requires d < 10
    ensures '0' <= ch <= '9'
  {
    "0123456789"[d]
  }

  /** The value of a decimal digit character. */
  function DigitValue(ch: char): nat {
    if '0' <= ch <= '9' then (ch as int - '0' as int) else 0
  }

  /** `n.ToString()` for a non-negative `int`: the decimal digits, most significant first. */
  function NatToString(n: nat): (r: string)
    ensures r != []
    ensures forall k :: 0 <= k < |r| ==> '0' <= r[k] <= '9'
  {
    if n < 10 then [DigitChar(n)] else NatToString(n / 10) + [DigitChar(n % 10)]
  }

  /** Reads a string of decimal digits back as a number. */
  function ParseNat(s: string): nat {
    if s == [] then 0 else 10 * ParseNat(s[..|s| - 1]) + DigitValue(s[|s| - 1])
  }

  lemma DigitRoundTrip(d: nat)
    requires d < 10
    ensures DigitValue(DigitChar(d)) == d
  {
    assert "0123456789"[d] as int == '0' as int + d;
  }

  /** Formatting then parsing gives the number back. */
  lemma {:induction false} ParseNatToString(n: nat)
    ensures ParseNat(NatToString(n)) == n
  {
    if n < 10 {
      DigitRoundTrip(n);
      assert [DigitChar(n)][..0] == [];
    } else {
      var s := NatToString(n);
      assert s[..|s| - 1] == NatToString(n / 10);
      ParseNatToString(n / 10);
      DigitRoundTrip(n % 10);
    }
  }

  /** Distinct numbers are formatted differently. */
  lemma NatToStringInjective(m: nat, n: nat)
    ensures NatToString(m) == NatToString(n) <==> m == n
  {
    if NatToString(m) == NatToString(n) {
      ParseNatToString(m);
      ParseNatToString(n);
    }
  }
}
