/**
  The label escaper of the generator: it rewrites the four characters that would
  break a Mermaid label (a double quote, a backslash, a carriage return and a
  line feed). It is lossy on purpose, and only its output alphabet is fixed.
 */
module Escaping {
  import opened Wrappers
  import opened Text

  /** The characters Escape rewrites. */
  predicate IsSpecial(ch: char) {
    ch == '"' || ch == '\\' || ch == '\r' || ch == '\n'
  }

  /** A text holding none of the characters Escape rewrites. */
  predicate Escaped(s: string) {
    forall k :: 0 <= k < |s| ==> !IsSpecial(s[k])
  }

  /** How Escape treats one character. */
  function EscapeChar(ch: char): string {
    if ch == '"' then "'"
    else if ch == '\\' then "/"
    else if ch == '\r' then " "
    else if ch == '\n' then "<br/>"
    else [ch]
  }

  /**
    The escaper: every character escaped on its own, left to right. `EscapeAsWritten`
    below is the same function in the form the generator spells it, and
    `EscapeAsWrittenIsEscape` proves the two equal on every text.
   */
  function Escape(s: string): string {
    if s == [] then [] else EscapeChar(s[0]) + Escape(s[1..])
  }

  /**
    The escaper as the generator writes it: an empty text is returned as it is, any
    other goes through four `Replace` calls in a fixed order.
   */
  function EscapeAsWritten(s: string): string {
    if s == "" then s
    else ReplaceChar(ReplaceChar(ReplaceChar(ReplaceChar(s, '"', "'"), '\\', "/"), '\r', " "), '\n', "<br/>")
  }

  /** The nullable form of the argument: `null` also gives "". */
  function EscapeNullable(s: Option<string>): (r: string)
    ensures s == None || s == Some("") ==> r == ""
    ensures s.Some? ==> r == EscapeAsWritten(s.value)
  {
    match s
    case None => ""
    case Some(t) => EscapeAsWrittenIsEscape(t); Escape(t)
  }

  /** Number of occurrences of `ch` in `s`. */
  function Occurrences(s: string, ch: char): nat {
    if s == [] then 0 else (if s[0] == ch then 1 else 0) + Occurrences(s[1..], ch)
  }

  // ---------------------------------------------------------------------------
  // The chain of replacements is a character-by-character map

  lemma EscapeOneChar(ch: char)
    ensures ReplaceChar(ReplaceChar(ReplaceChar(ReplaceChar([ch], '"', "'"), '\\', "/"), '\r', " "), '\n', "<br/>")
            == EscapeChar(ch)
  {
    assert [ch][1..] == [];
  }

  /** The four replacements, applied in the generator's order, escape each character independently. */
  lemma {:induction false} EscapeAsWrittenIsEscape(s: string)
    ensures EscapeAsWritten(s) == Escape(s)
  {
    if s != [] {
      var r1 := ReplaceChar(s, '"', "'");
      var r2 := ReplaceChar(r1, '\\', "/");
      var r3 := ReplaceChar(r2, '\r', " ");
      var r4 := ReplaceChar(r3, '\n', "<br/>");
      var a1 := ReplaceChar([s[0]], '"', "'");
      var b1 := ReplaceChar(s[1..], '"', "'");
      assert s == [s[0]] + s[1..];
      ReplaceCharAppend([s[0]], s[1..], '"', "'");
      ReplaceCharAppend(a1, b1, '\\', "/");
      var a2 := ReplaceChar(a1, '\\', "/");
      var b2 := ReplaceChar(b1, '\\', "/");
      ReplaceCharAppend(a2, b2, '\r', " ");
      var a3 := ReplaceChar(a2, '\r', " ");
      var b3 := ReplaceChar(b2, '\r', " ");
      ReplaceCharAppend(a3, b3, '\n', "<br/>");
      EscapeOneChar(s[0]);
      var tail := s[1..];
      assert r4 == EscapeChar(s[0]) + ReplaceChar(b3, '\n', "<br/>");
      if tail == [] {
        assert ReplaceChar(b3, '\n', "<br/>") == [];
      } else {
        EscapeAsWrittenIsEscape(tail);
      }
    }
  }

  // ---------------------------------------------------------------------------
  // Properties

  /** The exact mapping: a quote becomes an apostrophe, a backslash a slash, CR a space, LF `<br/>`; the rest is kept. */
  lemma EscapeMapping()
    ensures forall ch :: !IsSpecial(ch) ==> EscapeChar(ch) == [ch]
    ensures EscapeChar('"') == "'" && EscapeChar('\\') == "/" && EscapeChar('\r') == " " && EscapeChar('\n') == "<br/>"
  {
  }

  /** Escaping distributes over concatenation. */
  lemma {:induction false} EscapeAppend(a: string, b: string)
    ensures Escape(a + b) == Escape(a) + Escape(b)
  {
    if a != [] {
      assert (a + b)[0] == a[0];
      assert (a + b)[1..] == a[1..] + b;
      EscapeAppend(a[1..], b);
    } else {
      assert a + b == b;
    }
  }

  /** Every line feed grows the text by four characters (`<br/>` replaces one); nothing else changes the length. */
  lemma {:induction false} EscapeLength(s: string)
    ensures |Escape(s)| == |s| + 4 * Occurrences(s, '\n')
  {
    if s != [] {
      EscapeLength(s[1..]);
    }
  }

  /** The output holds no quote, backslash, carriage return or line feed. */
  lemma {:induction false} EscapeAlphabet(s: string)
    ensures Escaped(Escape(s))
  {
    if s != [] {
      EscapeAlphabet(s[1..]);
      var h, t := EscapeChar(s[0]), Escape(s[1..]);
      assert Escaped(h);
      forall k | 0 <= k < |h + t| ensures !IsSpecial((h + t)[k]) {
        if k >= |h| { assert (h + t)[k] == t[k - |h|]; }
      }
    }
  }

  /** A text without special characters is left as it is. */
  lemma {:induction false} EscapePlain(s: string)
    requires Escaped(s)
    ensures Escape(s) == s
  {
    if s != [] {
      assert !IsSpecial(s[0]);
      assert Escaped(s[1..]) by {
        forall k | 0 <= k < |s[1..]| ensures !IsSpecial(s[1..][k]) {
          assert s[1..][k] == s[k + 1];
        }
      }
      EscapePlain(s[1..]);
    }
  }

  /** Escaping twice is escaping once. */
  lemma EscapeIdempotent(s: string)
    ensures Escape(Escape(s)) == Escape(s)
  {
    EscapeAlphabet(s);
    EscapePlain(Escape(s));
  }

  /** The empty text and the absent text both give "". */
  lemma EscapeEmpty()
    ensures EscapeAsWritten("") == ""
    ensures EscapeNullable(None) == "" && EscapeNullable(Some("")) == ""
  {
  }

  // ---------------------------------------------------------------------------
  // Escape and Join

  /** Each text escaped on its own. */
  function EscapeAll(xs: seq<string>): (r: seq<string>)
    ensures |r| == |xs|
    ensures forall k :: 0 <= k < |xs| ==> r[k] == Escape(xs[k])
  {
    if xs == [] then [] else [Escape(xs[0])] + EscapeAll(xs[1..])
  }

  /** A separator without special characters passes through: escaping a join is joining the escaped parts. */
  lemma {:induction false} EscapeJoin(xs: seq<string>, sep: string)
    requires Escaped(sep)
    ensures Escape(Join(xs, sep)) == Join(EscapeAll(xs), sep)
  {
    if |xs| > 1 {
      EscapeAppend(xs[0] + sep, Join(xs[1..], sep));
      EscapeAppend(xs[0], sep);
      EscapePlain(sep);
      EscapeJoin(xs[1..], sep);
      assert EscapeAll(xs)[1..] == EscapeAll(xs[1..]);
    } else if |xs| == 1 {
      assert EscapeAll(xs) == [Escape(xs[0])];
    }
  }
}

/** Worked examples of the escaper, on the pieces of the generator's unit-test input. */
module EscapingExample {
  import opened Escaping

  /** Double quotes become apostrophes. */
  lemma QuotesBecomeApostrophes()
    ensures Escape("\"com\"") == "'com'"
  {
  }

  /** A backslash becomes a slash and a carriage return a space. */
  lemma BackslashAndCarriageReturn()
    ensures Escape("s\\e") == "s/e"
    ensures Escape("a\rd") == "a d"
  {
  }

  /** A line feed becomes `<br/>`, not the two characters backslash and `n`. */
  lemma LineFeedBecomesBreak()
    ensures Escape("e\nq") == "e<br/>q"
    ensures Escape("e\nq") != "e\\nq"
  {
  }

  /** Around a line feed, plain text is kept as it is. */
  lemma LineFeedBetweenPlainTexts(a: string, b: string)
    requires Escaped(a) && Escaped(b)
    ensures Escape(a + "\n" + b) == a + "<br/>" + b
  {
    EscapeAppend(a + "\n", b);
    EscapeAppend(a, "\n");
    EscapePlain(a);
    EscapePlain(b);
  }
}
