/** The equivalence verifier: both patterns anchored, every word tested
    against both, one verdict per word, no early exit. */
module Equivalence {
  import opened Types
  import opened Lines

  /** The pattern with "^" put in front and "$" after it. This is plain
      string concatenation, so a pattern whose top level is an alternation
      such as "a|b" becomes "^a|b$": only its first branch is anchored at
      the start and only its last at the end. */
  function Anchor(p: string): (r: string)
    ensures |r| == |p| + 2 && r[0] == '^' && r[|r| - 1] == '$' && r[1..|r| - 1] == p
  {
    "^" + p + "$"
  }

  /** regexp.MatchString with its error discarded: a pattern that does not
      compile matches nothing. */
  predicate MatchString(engine: Engine, pattern: string, word: string): (m: bool)
    ensures m <==> engine(pattern, word) == Matched(true)
  {
    match engine(pattern, word)
    case Matched(m) => m
    case BadPattern => false
  }

  /** Do the two patterns agree on the word? A pattern that does not compile
      agrees with one that compiles but does not match. */
  predicate EqualMatched(engine: Engine, p1: string, p2: string, word: string): (e: bool)
    ensures e <==> (engine(p1, word) == Matched(true) <==> engine(p2, word) == Matched(true))
  {
    MatchString(engine, p1, word) == MatchString(engine, p2, word)
  }

  /** The log line written for one word of a record. */
  function Verdict(engine: Engine, before: string, after: string, word: string): (r: LogEntry)
    ensures r == WordOk(word) || r == WordMismatch(word)
    ensures r.WordOk? <==> EqualMatched(engine, Anchor(before), Anchor(after), word)
  {
    if EqualMatched(engine, Anchor(before), Anchor(after), word) then WordOk(word) else WordMismatch(word)
  }

  /** The lines logged for a record's words: exactly one per word, in order,
      OK precisely when the anchored patterns agree on it. */
  function WordsLog(engine: Engine, before: string, after: string, words: seq<string>): (r: seq<LogEntry>)
    ensures |r| == |words|
    ensures forall i :: 0 <= i < |words| ==>
      (r[i] == WordOk(words[i]) <==> EqualMatched(engine, Anchor(before), Anchor(after), words[i])) &&
      (r[i] == WordMismatch(words[i]) <==> !EqualMatched(engine, Anchor(before), Anchor(after), words[i]))
  {
    if words == [] then []
    else [Verdict(engine, before, after, words[0])] + WordsLog(engine, before, after, words[1..])
  }

  /** runWords: tests every word, never stopping at a mismatch. */
  method RunWords(engine: Engine, rww: RegexesWithWords) returns (log: seq<LogEntry>)
    ensures log == WordsLog(engine, rww.regexBefore, rww.regexAfter, rww.words)
  {
    log := [];
    var i := 0;
    while i < |rww.words|
      invariant 0 <= i <= |rww.words|
      invariant |log| == i
      invariant forall k :: 0 <= k < i ==> log[k] == Verdict(engine, rww.regexBefore, rww.regexAfter, rww.words[k])
    {
      var word := rww.words[i];
      if !EqualMatched(engine, Anchor(rww.regexBefore), Anchor(rww.regexAfter), word) {
        log := log + [WordMismatch(word)];
      } else {
        log := log + [WordOk(word)];
      }
      i := i + 1;
    }
  }

  /** The lines logged for a whole batch: a header per record, then its
      word verdicts. */
  function CompareLog(engine: Engine, rwws: seq<RegexesWithWords>): seq<LogEntry> {
    if rwws == [] then []
    else
      [Comparing(rwws[0].regexBefore, rwws[0].regexAfter)]
      + WordsLog(engine, rwws[0].regexBefore, rwws[0].regexAfter, rwws[0].words)
      + CompareLog(engine, rwws[1..])
  }

  /** compareRegexWithWords: every record of the batch, in order. */
  method CompareRegexWithWords(engine: Engine, rwws: seq<RegexesWithWords>) returns (log: seq<LogEntry>)
    ensures log == CompareLog(engine, rwws)
  {
    log := [];
    var i := 0;
    while i < |rwws|
      invariant 0 <= i <= |rwws|
      invariant CompareLog(engine, rwws) == log + CompareLog(engine, rwws[i..])
    {
      var rww := rwws[i];
      var header := [Comparing(rww.regexBefore, rww.regexAfter)];
      var words := RunWords(engine, rww);
      CompareLogUnfold(engine, rwws, i);
      AppendAssoc(log, header + words, CompareLog(engine, rwws[i + 1..]));
      log := log + (header + words);
      i := i + 1;
    }
    assert rwws[i..] == [];
  }

  lemma CompareLogUnfold(engine: Engine, rwws: seq<RegexesWithWords>, i: nat)
    requires i < |rwws|
    ensures CompareLog(engine, rwws[i..]) ==
      [Comparing(rwws[i].regexBefore, rwws[i].regexAfter)]
      + WordsLog(engine, rwws[i].regexBefore, rwws[i].regexAfter, rwws[i].words)
      + CompareLog(engine, rwws[i + 1..])
  {
    assert rwws[i..][1..] == rwws[i + 1..];
  }

  function TotalWords(rwws: seq<RegexesWithWords>): nat {
    if rwws == [] then 0 else |rwws[0].words| + TotalWords(rwws[1..])
  }

  /** Nothing is skipped: one header per record and one verdict per word. */
  lemma {:induction false} CompareLogLength(engine: Engine, rwws: seq<RegexesWithWords>)
    ensures |CompareLog(engine, rwws)| == |rwws| + TotalWords(rwws)
  {
    if rwws != [] {
      CompareLogLength(engine, rwws[1..]);
    }
  }

  /** The comparison is symmetric in its two patterns. */
  lemma EqualMatchedSymmetric(engine: Engine, p1: string, p2: string, word: string)
    ensures EqualMatched(engine, p1, p2, word) == EqualMatched(engine, p2, p1, word)
  {
  }

  /** A pattern always agrees with itself, whatever the engine does. */
  lemma EqualMatchedReflexive(engine: Engine, p: string, word: string)
    ensures EqualMatched(engine, p, p, word)
  {
  }

  /** A pattern that does not compile counts as matching nothing, so the
      verdict then only asks whether the other pattern rejects the word. */
  lemma BadPatternMatchesNothing(engine: Engine, p1: string, p2: string, word: string)
    requires engine(p1, word) == BadPattern
    ensures EqualMatched(engine, p1, p2, word) <==> !MatchString(engine, p2, word)
  {
  }

  /** Swapping before and after changes no verdict of a record. */
  lemma {:induction false} WordsLogSwap(engine: Engine, before: string, after: string, words: seq<string>)
    ensures WordsLog(engine, before, after, words) == WordsLog(engine, after, before, words)
  {
    if words != [] {
      WordsLogSwap(engine, before, after, words[1..]);
    }
  }

  /** A record whose transformer left the pattern as it was passes on every
      word. */
  lemma {:induction false} IdenticalPatternsPass(engine: Engine, p: string, words: seq<string>)
    ensures forall i :: 0 <= i < |words| ==> WordsLog(engine, p, p, words)[i] == WordOk(words[i])
  {
    forall i | 0 <= i < |words|
      ensures WordsLog(engine, p, p, words)[i] == WordOk(words[i])
    {
      EqualMatchedReflexive(engine, Anchor(p), words[i]);
    }
  }

  /** Before "a", after "b", word "a": an engine that accepts "a" for "^a$"
      and rejects it for "^b$" yields a mismatch on "a". */
  lemma DifferentPatternsMismatch(engine: Engine)
    requires engine("^a$", "a") == Matched(true)
    requires engine("^b$", "a") == Matched(false)
    ensures WordsLog(engine, "a", "b", ["a"]) == [WordMismatch("a")]
  {
    assert Anchor("a") == "^a$" && Anchor("b") == "^b$";
  }

  /** Anchoring is by concatenation, so for an engine with Go's precedence,
      where "^a|b$" means "^a" or "b$", the equivalent alternations "a|b"
      and "b|a" are reported as a mismatch on the word "ab". */
  lemma SwappedAlternationMismatch(engine: Engine)
    requires engine("^a|b$", "ab") == Matched(true)
    requires engine("^b|a$", "ab") == Matched(false)
    ensures WordsLog(engine, "a|b", "b|a", ["ab"]) == [WordMismatch("ab")]
  {
    assert Anchor("a|b") == "^a|b$" && Anchor("b|a") == "^b|a$";
  }
}
