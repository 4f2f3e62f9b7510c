/** The timed matcher runner and the benchmark coordinator: one matcher run
    per pattern, the before pattern of a record first, records in order,
    and the first failure ending everything that would have followed. */
module Runner {
  import opened Types
  import opened Lines

  /** The pattern as one argument, wrapped in literal double quotes. */
  function Quote(p: string): (r: string)
    ensures |r| == |p| + 2 && r[0] == '"' && r[|r| - 1] == '"' && r[1..|r| - 1] == p
  {
    "\"" + p + "\""
  }

  /** The run that matching one pattern against a word list causes: the
      quoted pattern as argument, one second per word, and the words on
      standard input so that reading it back line by line gives them again. */
  function MatcherRun(pattern: string, words: seq<string>): (r: Run)
    ensures r.Match? && r.argument == Quote(pattern) && r.timeoutSeconds == |words|
    ensures NoNewlines(words) ==> DecodeBatch(r.stdin) == words
  {
    if NoNewlines(words) then
      DecodeBatchRoundTrip(words);
      Match(Quote(pattern), EncodeLines(words), |words|)
    else
      Match(Quote(pattern), EncodeLines(words), |words|)
  }

  /** What the runner makes of a matcher's outcome: failing to start and an
      exit error are errors; any other wait error is ignored, and the output
      then counts like that of a normal exit, minus one trailing "\n". */
  function ScriptResult(outcome: Outcome): (r: Result<string>)
    ensures r.Err? <==> outcome.StartFailed? || outcome.ExitFailed?
    ensures outcome.StartFailed? ==> r == Err(ScriptStartFailed)
    ensures outcome.ExitFailed? ==> r == Err(ScriptWaitFailed(outcome.stderr))
    ensures r.Ok? ==>
      var out := outcome.stdout;
      r.value + (if |out| > 0 && out[|out| - 1] == '\n' then "\n" else "") == out
  {
    match outcome
    case StartFailed => Err(ScriptStartFailed)
    case ExitFailed(stderr) => Err(ScriptWaitFailed(stderr))
    case WaitFailed(stdout) => Ok(TrimNewline(stdout))
    case Exited(stdout) => Ok(TrimNewline(stdout))
  }

  /** runPythonScriptForOneRegex: the words go to standard input one per
      line, in order, and the time budget is one second per word. */
  method RunOneRegex(pattern: string, words: seq<string>, env: Env, h: seq<Run>)
    returns (run: Run, result: Result<string>)
    ensures run.Match? && run.argument == Quote(pattern) && run.timeoutSeconds == |words|
    ensures run.stdin == EncodeLines(words)
    ensures result == ScriptResult(env(h + [run]))
  {
    var stdin := WriteLines(words);
    run := Match(Quote(pattern), stdin, |words|);
    result := ScriptResult(env(h + [run]));
  }

  /** The runs, log lines and error of benchmarking one record after the
      runs `h`. */
  function PairSpec(env: Env, h: seq<Run>, rww: RegexesWithWords): Trace {
    var before := MatcherRun(rww.regexBefore, rww.words);
    match ScriptResult(env(h + [before]))
    case Err(e) => Trace([before], [], Some(Wrapped(BeforeRegex, e)))
    case Ok(beforeStatus) =>
      var after := MatcherRun(rww.regexAfter, rww.words);
      match ScriptResult(env(h + [before, after]))
      case Err(e) => Trace([before, after], [], Some(Wrapped(AfterRegex, e)))
      case Ok(afterStatus) =>
        Trace([before, after], [BeforeTimed(rww.regexBefore, beforeStatus), AfterTimed(rww.regexAfter, afterStatus)], None)
  }

  /** runPythonScriptForPairRegexes. */
  method RunPair(rww: RegexesWithWords, env: Env, h: seq<Run>) returns (t: Trace)
    ensures t == PairSpec(env, h, rww)
  {
    var before, beforeResult := RunOneRegex(rww.regexBefore, rww.words, env, h);
    if beforeResult.Err? {
      return Trace([before], [], Some(Wrapped(BeforeRegex, beforeResult.error)));
    }
    var after, afterResult := RunOneRegex(rww.regexAfter, rww.words, env, h + [before]);
    assert h + [before] + [after] == h + [before, after];
    if afterResult.Err? {
      return Trace([before, after], [], Some(Wrapped(AfterRegex, afterResult.error)));
    }
    t := Trace([before, after], [BeforeTimed(rww.regexBefore, beforeResult.value), AfterTimed(rww.regexAfter, afterResult.value)], None);
  }

  /** The first record's trace followed, when it succeeded, by the rest. */
  function BenchSpec(env: Env, h: seq<Run>, rwws: seq<RegexesWithWords>): Trace
    decreases |rwws|
  {
    if rwws == [] then Trace([], [], None)
    else
      var first := PairSpec(env, h, rwws[0]);
      if first.err.Some? then Trace(first.runs, first.log, Some(Wrapped(PairScript, first.err.value)))
      else
        var rest := BenchSpec(env, h + first.runs, rwws[1..]);
        Trace(first.runs + rest.runs, first.log + rest.log, rest.err)
  }

  function Prepend(runs: seq<Run>, log: seq<LogEntry>, t: Trace): Trace {
    Trace(runs + t.runs, log + t.log, t.err)
  }

  /** One step of the coordinator: the first record's runs, then either
      its failure or the rest of the batch. */
  lemma BenchStep(env: Env, h: seq<Run>, rwws: seq<RegexesWithWords>)
    requires rwws != []
    ensures var first := PairSpec(env, h, rwws[0]);
      BenchSpec(env, h, rwws) ==
        if first.err.Some? then Trace(first.runs, first.log, Some(Wrapped(PairScript, first.err.value)))
        else Prepend(first.runs, first.log, BenchSpec(env, h + first.runs, rwws[1..]))
  {
  }

  lemma PrependTwice(runs1: seq<Run>, log1: seq<LogEntry>, runs2: seq<Run>, log2: seq<LogEntry>, t: Trace)
    ensures Prepend(runs1, log1, Prepend(runs2, log2, t)) == Prepend(runs1 + runs2, log1 + log2, t)
  {
    assert runs1 + (runs2 + t.runs) == runs1 + runs2 + t.runs;
    assert log1 + (log2 + t.log) == log1 + log2 + t.log;
  }

  /** The loop of RunBenchmarks, one record further. */
  lemma BenchLoopStep(env: Env, h: seq<Run>, rwws: seq<RegexesWithWords>, i: nat,
                      runs: seq<Run>, log: seq<LogEntry>, pair: Trace)
    requires i < |rwws| && pair == PairSpec(env, h + runs, rwws[i])
    requires BenchSpec(env, h, rwws) == Prepend(runs, log, BenchSpec(env, h + runs, rwws[i..]))
    ensures pair.err.Some? ==>
      BenchSpec(env, h, rwws) == Trace(runs + pair.runs, log + pair.log, Some(Wrapped(PairScript, pair.err.value)))
    ensures pair.err.None? ==>
      BenchSpec(env, h, rwws) == Prepend(runs + pair.runs, log + pair.log, BenchSpec(env, h + (runs + pair.runs), rwws[i + 1..]))
  {
    BenchStep(env, h + runs, rwws[i..]);
    assert rwws[i..][0] == rwws[i] && rwws[i..][1..] == rwws[i + 1..];
    if pair.err.None? {
      PrependTwice(runs, log, pair.runs, pair.log, BenchSpec(env, h + runs + pair.runs, rwws[i + 1..]));
      assert h + runs + pair.runs == h + (runs + pair.runs);
    }
  }

  /** runBenchmarksInPython: the records in order, returning at the first
      one that fails. */
  method RunBenchmarks(rwws: seq<RegexesWithWords>, env: Env, h: seq<Run>) returns (t: Trace)
    ensures t == BenchSpec(env, h, rwws)
  {
    var runs: seq<Run> := [];
    var log: seq<LogEntry> := [];
    var i := 0;
    assert h + runs == h && rwws[i..] == rwws;
    while i < |rwws|
      invariant 0 <= i <= |rwws|
      invariant BenchSpec(env, h, rwws) == Prepend(runs, log, BenchSpec(env, h + runs, rwws[i..]))
    {
      var pair := RunPair(rwws[i], env, h + runs);
      BenchLoopStep(env, h, rwws, i, runs, log, pair);
      if pair.err.Some? {
        return Trace(runs + pair.runs, log + pair.log, Some(Wrapped(PairScript, pair.err.value)));
      }
      runs := runs + pair.runs;
      log := log + pair.log;
      i := i + 1;
    }
    assert rwws[i..] == [];
    t := Trace(runs, log, None);
  }

  /** The runs of a batch in which no record fails: each record's before
      run, then its after run, record after record. */
  function FullRuns(rwws: seq<RegexesWithWords>): (r: seq<Run>) {
    if rwws == [] then [] else PairRuns(rwws[0]) + FullRuns(rwws[1..])
  }

  /** A record's before run, then its after run. */
  function PairRuns(rww: RegexesWithWords): seq<Run> {
    [MatcherRun(rww.regexBefore, rww.words), MatcherRun(rww.regexAfter, rww.words)]
  }

  /** In FullRuns, record m's before run is at 2m and its after run at 2m+1. */
  lemma {:induction false} FullRunsAt(rwws: seq<RegexesWithWords>, m: nat)
    requires m < |rwws|
    ensures |FullRuns(rwws)| == 2 * |rwws|
    ensures FullRuns(rwws)[2 * m] == MatcherRun(rwws[m].regexBefore, rwws[m].words)
    ensures FullRuns(rwws)[2 * m + 1] == MatcherRun(rwws[m].regexAfter, rwws[m].words)
  {
    var p, f := PairRuns(rwws[0]), FullRuns(rwws[1..]);
    assert FullRuns(rwws) == p + f;
    if |rwws| == 1 {
      assert f == [];
    } else if m == 0 {
      FullRunsAt(rwws[1..], 0);
    } else {
      FullRunsAt(rwws[1..], m - 1);
      assert rwws[1..][m - 1] == rwws[m];
      assert (p + f)[2 * m] == f[2 * (m - 1)];
      assert (p + f)[2 * m + 1] == f[2 * (m - 1) + 1];
    }
  }

  /** Within a record the before run comes first, and the after run happens
      exactly when the before run did not fail. */
  lemma PairOrder(env: Env, h: seq<Run>, rww: RegexesWithWords)
    ensures var t := PairSpec(env, h, rww);
      1 <= |t.runs| <= 2 && t.runs[0] == MatcherRun(rww.regexBefore, rww.words) &&
      (|t.runs| == 2 <==> ScriptResult(env(h + [t.runs[0]])).Ok?) &&
      (|t.runs| == 2 ==> t.runs[1] == MatcherRun(rww.regexAfter, rww.words)) &&
      (t.err == None <==> |t.runs| == 2 && ScriptResult(env(h + t.runs)).Ok?)
  {
  }

  /** When no record fails, every record is run, before then after, in
      order, and each logs its two timing lines. */
  lemma {:induction false} BenchRunsEveryPair(env: Env, h: seq<Run>, rwws: seq<RegexesWithWords>)
    requires BenchSpec(env, h, rwws).err == None
    ensures BenchSpec(env, h, rwws).runs == FullRuns(rwws)
    ensures |BenchSpec(env, h, rwws).log| == 2 * |rwws|
    decreases |rwws|
  {
    if rwws != [] {
      var first := PairSpec(env, h, rwws[0]);
      BenchStep(env, h, rwws);
      PairRunsInFull(env, h, rwws[0]);
      BenchRunsEveryPair(env, h + first.runs, rwws[1..]);
    }
  }

  /** The index of the record whose failure ends a failing batch. */
  function FailedPair(env: Env, h: seq<Run>, rwws: seq<RegexesWithWords>): nat
    decreases |rwws|
  {
    if rwws == [] then 0
    else
      var first := PairSpec(env, h, rwws[0]);
      if first.err.Some? then 0 else 1 + FailedPair(env, h + first.runs, rwws[1..])
  }

  /** A record that succeeds ran both its patterns and logged two lines. */
  lemma PairRunsInFull(env: Env, h: seq<Run>, rww: RegexesWithWords)
    requires PairSpec(env, h, rww).err.None?
    ensures PairSpec(env, h, rww).runs == PairRuns(rww) && |PairSpec(env, h, rww).log| == 2
  {
  }

  /** The full runs of the first k records: the first one's, then those of
      the next k - 1. */
  lemma FullRunsPrefix(rwws: seq<RegexesWithWords>, k: nat)
    requires 0 < k <= |rwws|
    ensures FullRuns(rwws[..k]) == PairRuns(rwws[0]) + FullRuns(rwws[1..][..k - 1])
  {
    assert rwws[..k][0] == rwws[0] && rwws[..k][1..] == rwws[1..][..k - 1];
  }

  /** Cutting a trace after its first record's two runs and j more pairs. */
  lemma SplitAfterPair(h: seq<Run>, first: seq<Run>, rest: seq<Run>, j: nat)
    requires |first| == 2 && 2 * j <= |rest|
    ensures (first + rest)[..2 * (j + 1)] == first + rest[..2 * j]
    ensures h + (first + rest)[..2 * (j + 1)] == h + first + rest[..2 * j]
    ensures (first + rest)[2 * (j + 1)..] == rest[2 * j..]
  {
  }

  /** When the batch fails, record k = FailedPair is the first failing one:
      every record before it ran in full and logged, its own before run
      happened (and its after run only if the before run succeeded), the
      error is its own, and no later record ran at all. */
  lemma {:induction false} BenchStopsAtFirstFailure(env: Env, h: seq<Run>, rwws: seq<RegexesWithWords>)
    requires BenchSpec(env, h, rwws).err.Some?
    ensures var t, k := BenchSpec(env, h, rwws), FailedPair(env, h, rwws);
      k < |rwws| && 2 * k + 1 <= |t.runs| <= 2 * k + 2 && |t.log| == 2 * k &&
      t.runs[..2 * k] == FullRuns(rwws[..k]) &&
      t.runs[2 * k..] == PairSpec(env, h + t.runs[..2 * k], rwws[k]).runs &&
      PairSpec(env, h + t.runs[..2 * k], rwws[k]).err.Some? &&
      t.err == Some(Wrapped(PairScript, PairSpec(env, h + t.runs[..2 * k], rwws[k]).err.value))
    decreases |rwws|
  {
    var t := BenchSpec(env, h, rwws);
    var first := PairSpec(env, h, rwws[0]);
    BenchStep(env, h, rwws);
    if first.err.Some? {
      PairOrder(env, h, rwws[0]);
      assert t.runs[..0] == [] && h + [] == h && t.runs[0..] == t.runs && rwws[..0] == [];
    } else {
      PairRunsInFull(env, h, rwws[0]);
      var h' := h + first.runs;
      var rest := BenchSpec(env, h', rwws[1..]);
      BenchStopsAtFirstFailure(env, h', rwws[1..]);
      var j := FailedPair(env, h', rwws[1..]);
      assert t.runs == first.runs + rest.runs && t.log == first.log + rest.log;
      SplitAfterPair(h, first.runs, rest.runs, j);
      FullRunsPrefix(rwws, j + 1);
      assert rwws[1..][j] == rwws[j + 1];
    }
  }

  /** Every run the coordinator starts is a matcher run. */
  lemma {:induction false} BenchRunsOnlyMatchers(env: Env, h: seq<Run>, rwws: seq<RegexesWithWords>)
    ensures forall i :: 0 <= i < |BenchSpec(env, h, rwws).runs| ==> BenchSpec(env, h, rwws).runs[i].Match?
    decreases |rwws|
  {
    if rwws != [] {
      var first := PairSpec(env, h, rwws[0]);
      PairOrder(env, h, rwws[0]);
      if first.err.None? {
        BenchRunsOnlyMatchers(env, h + first.runs, rwws[1..]);
      }
    }
  }
}
