/** The batch transformer client: every pattern of the batch goes to the
    transformer on one line of its standard input, and its answer is
    paired back with the records by position, in place. */
module Conversion {
  import opened Types
  import opened Lines

  /** The patterns of a batch, in order. */
  function Befores(rwws: seq<RegexesWithWords>): (r: seq<string>)
    ensures |r| == |rwws| && forall i :: 0 <= i < |rwws| ==> r[i] == rwws[i].regexBefore
  {
    seq(|rwws|, i requires 0 <= i < |rwws| => rwws[i].regexBefore)
  }

  /** The one transformer run a batch causes. */
  function TransformRun(binary: string, rwws: seq<RegexesWithWords>): Run {
    Transform(binary, EncodeLines(Befores(rwws)))
  }

  /** The batch with its i-th transformed pattern set from the i-th line. */
  function WithAfters(rwws: seq<RegexesWithWords>, lines: seq<string>): (r: seq<RegexesWithWords>)
    requires |lines| == |rwws|
    ensures |r| == |rwws|
    ensures forall i :: 0 <= i < |rwws| ==> r[i] == rwws[i].(regexAfter := lines[i])
  {
    seq(|rwws|, i requires 0 <= i < |rwws| => rwws[i].(regexAfter := lines[i]))
  }

  /** conversionRegularExpression as written. A failed run leaves the batch
      untouched; otherwise the i-th decoded line becomes the i-th record's
      transformed pattern, and records beyond the last line keep theirs.
      The assignment indexes the slice, so more lines than records is out
      of range: that bound is the precondition. */
  method ConversionRegularExpression(rww: array<RegexesWithWords>, binary: string, env: Env, h: seq<Run>)
    returns (run: Run, err: Option<Error>)
    requires var o := env(h + [TransformRun(binary, rww[..])]);
      o.Exited? ==> |Decode(o.stdout)| <= rww.Length
    modifies rww
    ensures run == TransformRun(binary, old(rww[..]))
    ensures !env(h + [run]).Exited? ==> err == Some(SimplifierFailed(env(h + [run]))) && rww[..] == old(rww[..])
    ensures env(h + [run]).Exited? ==> err == None
    ensures env(h + [run]).Exited? ==>
      var lines := Decode(env(h + [run]).stdout);
      forall i :: 0 <= i < rww.Length ==>
        rww[i] == if i < |lines| then old(rww[i]).(regexAfter := lines[i]) else old(rww[i])
  {
    var stdin := WriteLines(Befores(rww[..]));
    run := Transform(binary, stdin);
    var outcome := env(h + [run]);
    if !outcome.Exited? {
      return run, Some(SimplifierFailed(outcome));
    }
    var lines := Decode(outcome.stdout);
    var i := 0;
    while i < |lines|
      invariant 0 <= i <= |lines| <= rww.Length
      invariant forall k :: 0 <= k < rww.Length ==>
        rww[k] == if k < i then old(rww[k]).(regexAfter := lines[k]) else old(rww[k])
    {
      rww[i] := rww[i].(regexAfter := lines[i]);
      i := i + 1;
    }
    err := None;
  }

  /** The conversion as the batching contract intends it: the empty output
      is the empty batch, and an answer with a different number of lines
      than patterns is an error, so no record is ever paired with the
      wrong line. */
  function ConversionSpec(outcome: Outcome, rwws: seq<RegexesWithWords>): Result<seq<RegexesWithWords>> {
    if !outcome.Exited? then Err(SimplifierFailed(outcome))
    else
      var lines := DecodeBatch(outcome.stdout);
      if |lines| != |rwws| then Err(LineCountMismatch(|rwws|, |lines|))
      else Ok(WithAfters(rwws, lines))
  }

  /** The corrected conversion, in place: the batch changes only when the
      transformer answered with one line per pattern. */
  method ConversionChecked(rww: array<RegexesWithWords>, binary: string, env: Env, h: seq<Run>)
    returns (run: Run, err: Option<Error>)
    modifies rww
    ensures run == TransformRun(binary, old(rww[..]))
    ensures ConversionSpec(env(h + [run]), old(rww[..])).Ok? ==>
      err == None && rww[..] == ConversionSpec(env(h + [run]), old(rww[..])).value
    ensures ConversionSpec(env(h + [run]), old(rww[..])).Err? ==>
      err == Some(ConversionSpec(env(h + [run]), old(rww[..])).error) && rww[..] == old(rww[..])
  {
    var stdin := WriteLines(Befores(rww[..]));
    run := Transform(binary, stdin);
    var outcome := env(h + [run]);
    if !outcome.Exited? {
      return run, Some(SimplifierFailed(outcome));
    }
    var lines := DecodeBatch(outcome.stdout);
    if |lines| != rww.Length {
      return run, Some(LineCountMismatch(rww.Length, |lines|));
    }
    var i := 0;
    while i < |lines|
      invariant 0 <= i <= |lines| == rww.Length
      invariant forall k :: 0 <= k < rww.Length ==>
        rww[k] == if k < i then old(rww[k]).(regexAfter := lines[k]) else old(rww[k])
    {
      rww[i] := rww[i].(regexAfter := lines[i]);
      i := i + 1;
    }
    err := None;
  }

  /** The positional correspondence law: whenever the conversion succeeds,
      there is one transformed pattern per record, the i-th one is the
      transformer's i-th line, and the patterns and words are those of the
      batch. */
  lemma ConversionPairsPositionally(outcome: Outcome, rwws: seq<RegexesWithWords>)
    requires ConversionSpec(outcome, rwws).Ok?
    ensures outcome.Exited?
    ensures var r := ConversionSpec(outcome, rwws).value;
      |r| == |rwws| && |DecodeBatch(outcome.stdout)| == |rwws| &&
      forall i :: 0 <= i < |rwws| ==>
        r[i].regexBefore == rwws[i].regexBefore && r[i].words == rwws[i].words &&
        r[i].regexAfter == DecodeBatch(outcome.stdout)[i]
  {
  }

  /** A transformer that answers each line with one line recovers exactly
      its answers, in order, whatever the size of the batch, empty included. */
  lemma ConversionRecoversAnswers(rwws: seq<RegexesWithWords>, answers: seq<string>)
    requires |answers| == |rwws| && NoNewlines(answers)
    ensures ConversionSpec(Exited(EncodeLines(answers)), rwws) == Ok(WithAfters(rwws, answers))
  {
    DecodeBatchRoundTrip(answers);
  }

  /** A transformer that echoes its input gives every record back its own
      pattern, when no pattern holds a line break. */
  lemma EchoKeepsPatterns(binary: string, rwws: seq<RegexesWithWords>)
    requires NoNewlines(Befores(rwws))
    ensures var r := ConversionSpec(Exited(TransformRun(binary, rwws).stdin), rwws);
      r.Ok? && forall i :: 0 <= i < |rwws| ==> r.value[i].regexAfter == rwws[i].regexBefore
  {
    ConversionRecoversAnswers(rwws, Befores(rwws));
  }

  /** As written, an empty batch cannot be converted: whatever the
      transformer prints, decoding yields at least one line, which is more
      than the zero records the assignment may index. */
  lemma EmptyBatchOverruns(stdout: string)
    ensures |Decode(stdout)| > 0
    ensures Decode(EncodeLines(Befores([]))) == [""]
  {
    EmptyBatchDecodesToOneLine();
    assert Befores([]) == [];
  }
}
