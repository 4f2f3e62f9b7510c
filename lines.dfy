/** The newline-delimited text protocol shared by the transformer and the
    matcher: how a batch of strings is written to a child's standard input,
    and how the transformer's standard output is cut back into lines
    (strings.TrimSuffix followed by strings.Split, with Go's semantics). */
module Lines {

  /** No element contains a line break, so each one fits on one line. */
  predicate NoNewlines(xs: seq<string>) {
    forall i :: 0 <= i < |xs| ==> '\n' !in xs[i]
  }

  /** What the writing loops put into a bytes.Buffer: every element followed
      by one "\n", in order; nothing at all for an empty batch. */
  function EncodeLines(xs: seq<string>): string {
    if xs == [] then "" else xs[0] + "\n" + EncodeLines(xs[1..])
  }

  /** strings.Join(xs, "\n"). */
  function JoinLines(xs: seq<string>): string {
    if |xs| == 0 then ""
    else if |xs| == 1 then xs[0]
    else xs[0] + "\n" + JoinLines(xs[1..])
  }

  /** strings.Split(s, "\n"): one piece more than there are line breaks, so
      never empty (the empty string splits into one empty piece), and no
      piece holds a line break. */
  function SplitLines(s: string): (r: seq<string>)
    ensures |r| >= 1
    ensures NoNewlines(r)
  {
    if |s| == 0 then [""]
    else
      var rest := SplitLines(s[1..]);
      if s[0] == '\n' then [""] + rest
      else [[s[0]] + rest[0]] + rest[1..]
  }

  /** strings.TrimSuffix(s, "\n"): drops one trailing line break, if any. */
  function TrimNewline(s: string): (r: string)
    ensures r <= s && |s| - 1 <= |r|
    ensures |r| < |s| <==> (|s| > 0 && s[|s| - 1] == '\n')
  {
    if |s| > 0 && s[|s| - 1] == '\n' then s[..|s| - 1] else s
  }

  /** How the transformer's standard output is read back: trim one trailing
      line break, then split on line breaks. */
  function Decode(s: string): (r: seq<string>)
    ensures |r| >= 1 && NoNewlines(r)
  {
    SplitLines(TrimNewline(s))
  }

  /** Decode with the empty output read as an empty batch rather than as
      one empty line. */
  function DecodeBatch(s: string): (r: seq<string>)
    ensures NoNewlines(r)
  {
    if s == "" then [] else Decode(s)
  }

  /** The writing loop: a buffer filled one element and one "\n" at a time. */
  method WriteLines(xs: seq<string>) returns (buf: string)
    ensures buf == EncodeLines(xs)
  {
    buf := "";
    var i := 0;
    while i < |xs|
      invariant 0 <= i <= |xs|
      invariant buf == EncodeLines(xs[..i])
    {
      EncodeLinesSnoc(xs[..i], xs[i]);
      assert xs[..i + 1] == xs[..i] + [xs[i]];
      buf := buf + xs[i] + "\n";
      i := i + 1;
    }
    assert xs[..i] == xs;
  }

  /** Writing one more element appends exactly that element and a "\n". */
  lemma {:induction false} EncodeLinesSnoc(xs: seq<string>, x: string)
    ensures EncodeLines(xs + [x]) == EncodeLines(xs) + x + "\n"
  {
    if xs == [] {
      assert [x][1..] == [];
    } else {
      assert (xs + [x])[1..] == xs[1..] + [x];
      EncodeLinesSnoc(xs[1..], x);
    }
  }

  /** A non-empty batch is written as its join plus one final line break. */
  lemma {:induction false} EncodeIsJoinPlusNewline(xs: seq<string>)
    requires |xs| > 0
    ensures EncodeLines(xs) == JoinLines(xs) + "\n"
  {
    if |xs| > 1 {
      EncodeIsJoinPlusNewline(xs[1..]);
    } else {
      assert xs[1..] == [];
    }
  }

  /** A string without line breaks splits into itself. */
  lemma {:induction false} SplitSingleLine(a: string)
    requires '\n' !in a
    ensures SplitLines(a) == [a]
  {
    if |a| > 0 {
      assert '\n' !in a[1..];
      SplitSingleLine(a[1..]);
      assert [a[0]] + a[1..] == a;
    }
  }

  /** Splitting a line followed by a break peels that line off the front. */
  lemma {:induction false} SplitFirstLine(a: string, rest: string)
    requires '\n' !in a
    ensures SplitLines(a + "\n" + rest) == [a] + SplitLines(rest)
  {
    var s := a + "\n" + rest;
    if |a| == 0 {
      assert s[0] == '\n' && s[1..] == rest;
    } else {
      assert s[0] == a[0] && s[1..] == a[1..] + "\n" + rest;
      assert '\n' !in a[1..];
      SplitFirstLine(a[1..], rest);
      assert [a[0]] + a[1..] == a;
    }
  }

  /** Splitting undoes joining, for a non-empty list of single lines. */
  lemma {:induction false} SplitJoin(xs: seq<string>)
    requires |xs| > 0 && NoNewlines(xs)
    ensures SplitLines(JoinLines(xs)) == xs
  {
    if |xs| == 1 {
      SplitSingleLine(xs[0]);
    } else {
      SplitFirstLine(xs[0], JoinLines(xs[1..]));
      SplitJoin(xs[1..]);
    }
  }

  /** Putting a character in front of the first piece puts it in front of
      the join. */
  lemma JoinPrepend(c: char, rest: seq<string>)
    requires |rest| > 0
    ensures JoinLines([[c] + rest[0]] + rest[1..]) == [c] + JoinLines(rest)
  {
    var r := [[c] + rest[0]] + rest[1..];
    assert r[0] == [c] + rest[0] && r[1..] == rest[1..];
    if |rest| > 1 {
      var tail := "\n" + JoinLines(rest[1..]);
      JoinCons(r);
      JoinCons(rest);
      AppendAssoc([c], rest[0], tail);
    }
  }

  /** Unfolding the join of two or more pieces. */
  lemma JoinCons(xs: seq<string>)
    requires |xs| > 1
    ensures JoinLines(xs) == xs[0] + ("\n" + JoinLines(xs[1..]))
  {
  }

  /** Concatenation regroups freely. */
  lemma AppendAssoc<T>(a: seq<T>, b: seq<T>, c: seq<T>)
    ensures a + b + c == a + (b + c)
  {
  }

  /** Joining undoes splitting, for every string. */
  lemma {:induction false} JoinSplit(s: string)
    ensures JoinLines(SplitLines(s)) == s
  {
    if |s| > 0 {
      var rest := SplitLines(s[1..]);
      JoinSplit(s[1..]);
      if s[0] == '\n' {
        assert ([""] + rest)[1..] == rest;
      } else {
        JoinPrepend(s[0], rest);
      }
      assert s == [s[0]] + s[1..];
    }
  }

  /** Round trip of the transformer protocol: a non-empty batch of single
      lines, written out and read back, is the same batch. */
  lemma DecodeRoundTrip(xs: seq<string>)
    requires |xs| > 0 && NoNewlines(xs)
    ensures Decode(EncodeLines(xs)) == xs
  {
    EncodeIsJoinPlusNewline(xs);
    assert TrimNewline(JoinLines(xs) + "\n") == JoinLines(xs);
    SplitJoin(xs);
  }

  /** The empty batch does not survive the round trip: nothing is written,
      and the empty output still reads back as one empty line. */
  lemma EmptyBatchDecodesToOneLine()
    ensures EncodeLines([]) == ""
    ensures Decode(EncodeLines([])) == [""]
  {
  }

  /** Round trip with the empty output read as the empty batch: it holds
      for every batch of single lines, the empty one included. */
  lemma DecodeBatchRoundTrip(xs: seq<string>)
    requires NoNewlines(xs)
    ensures DecodeBatch(EncodeLines(xs)) == xs
  {
    if xs != [] {
      assert EncodeLines(xs) != "";
      DecodeRoundTrip(xs);
    }
  }

  /** The other direction: an output that ends in a line break is exactly
      the encoding of its decoded lines, and one that does not is their
      join, so decoding loses nothing. */
  lemma EncodeDecode(s: string)
    ensures |s| > 0 && s[|s| - 1] == '\n' ==> EncodeLines(Decode(s)) == s
    ensures !(|s| > 0 && s[|s| - 1] == '\n') ==> JoinLines(Decode(s)) == s
  {
    JoinSplit(TrimNewline(s));
    EncodeIsJoinPlusNewline(Decode(s));
    if |s| > 0 && s[|s| - 1] == '\n' {
      assert s == s[..|s| - 1] + "\n";
    }
  }
}
