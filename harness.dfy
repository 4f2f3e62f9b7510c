/** The entry point and its two flows. Each flow generates words for the
    patterns, has the transformer convert the batch, and then either
    compares the two patterns of every record or benchmarks them; the
    benchmark flow only starts once the equivalence flow has succeeded. */
module Harness {
  import opened Types
  import opened Lines
  import opened Conversion
  import opened Equivalence
  import opened Runner

  /** What preparing a flow's batch did: the runs it started and the
      converted batch or the error. */
  datatype Prepared = Prepared(runs: seq<Run>, result: Result<seq<RegexesWithWords>>)

  function PrepareSpec(env: Env, h: seq<Run>, binary: string, regexes: seq<string>,
                       countWords: int, maxDumpSize: int, wordGen: WordGenerator): Prepared
  {
    match wordGen(regexes, countWords, maxDumpSize)
    case None => Prepared([], Err(Wrapped(GeneratingWords, GenerationFailed)))
    case Some(rwws) =>
      var run := TransformRun(binary, rwws);
      match ConversionSpec(env(h + [run]), rwws)
      case Err(e) => Prepared([run], Err(Wrapped(Converting, e)))
      case Ok(converted) => Prepared([run], Ok(converted))
  }

  /** prepareEnvironment: the generated records are converted in place. */
  method PrepareEnvironment(env: Env, h: seq<Run>, binary: string, regexes: seq<string>,
                            countWords: int, maxDumpSize: int, wordGen: WordGenerator)
    returns (p: Prepared)
    ensures p == PrepareSpec(env, h, binary, regexes, countWords, maxDumpSize, wordGen)
  {
    var generated := wordGen(regexes, countWords, maxDumpSize);
    if generated.None? {
      return Prepared([], Err(Wrapped(GeneratingWords, GenerationFailed)));
    }
    var words := generated.value;
    var rww := new RegexesWithWords[|words|](i requires 0 <= i < |words| => words[i]);
    assert rww[..] == words;
    var run, err := ConversionChecked(rww, binary, env, h);
    if err.Some? {
      return Prepared([run], Err(Wrapped(Converting, err.value)));
    }
    p := Prepared([run], Ok(rww[..]));
  }

  function EquivalenceSpec(env: Env, h: seq<Run>, engine: Engine, cfg: Config,
                           regexes: seq<string>, wordGen: WordGenerator): Trace
  {
    var p := PrepareSpec(env, h, cfg.rustBinaryPath, regexes,
                         cfg.equivalenceCountWords, cfg.equivalenceMaxDumpSize, wordGen);
    match p.result
    case Err(e) => Trace(p.runs, [], Some(e))
    case Ok(rwws) => Trace(p.runs, CompareLog(engine, rwws), None)
  }

  /** equivalenceCheck. */
  method EquivalenceCheck(env: Env, h: seq<Run>, engine: Engine, cfg: Config,
                          regexes: seq<string>, wordGen: WordGenerator)
    returns (t: Trace)
    ensures t == EquivalenceSpec(env, h, engine, cfg, regexes, wordGen)
  {
    var p := PrepareEnvironment(env, h, cfg.rustBinaryPath, regexes,
                                cfg.equivalenceCountWords, cfg.equivalenceMaxDumpSize, wordGen);
    if p.result.Err? {
      return Trace(p.runs, [], Some(p.result.error));
    }
    var log := CompareRegexWithWords(engine, p.result.value);
    t := Trace(p.runs, log, None);
  }

  function BenchmarkSpec(env: Env, h: seq<Run>, cfg: Config, regexes: seq<string>,
                         wordGen: WordGenerator, augment: Augmenter): Trace
  {
    var p := PrepareSpec(env, h, cfg.rustBinaryPath, regexes,
                         cfg.benchCountWords, cfg.benchMaxDumpSize, wordGen);
    match p.result
    case Err(e) => Trace(p.runs, [], Some(e))
    case Ok(rwws) =>
      match augment(rwws)
      case None => Trace(p.runs, [], Some(GenerationFailed))
      case Some(augmented) =>
        var b := BenchSpec(env, h + p.runs, augmented);
        Trace(p.runs + b.runs, b.log, if b.err.Some? then Some(Wrapped(PythonComparison, b.err.value)) else None)
  }

  /** benchmarkCheck: an augmentation failure is passed up as it is. */
  method BenchmarkCheck(env: Env, h: seq<Run>, cfg: Config, regexes: seq<string>,
                        wordGen: WordGenerator, augment: Augmenter)
    returns (t: Trace)
    ensures t == BenchmarkSpec(env, h, cfg, regexes, wordGen, augment)
  {
    var p := PrepareEnvironment(env, h, cfg.rustBinaryPath, regexes,
                                cfg.benchCountWords, cfg.benchMaxDumpSize, wordGen);
    if p.result.Err? {
      return Trace(p.runs, [], Some(p.result.error));
    }
    var augmented := augment(p.result.value);
    if augmented.None? {
      return Trace(p.runs, [], Some(GenerationFailed));
    }
    var b := RunBenchmarks(augmented.value, env, h + p.runs);
    if b.err.Some? {
      return Trace(p.runs + b.runs, b.log, Some(Wrapped(PythonComparison, b.err.value)));
    }
    t := Trace(p.runs + b.runs, b.log, None);
  }

  function StartSpec(env: Env, engine: Engine, cfg: Config, regexes: seq<string>,
                     wordGen: WordGenerator, augment: Augmenter): Trace
  {
    var e := EquivalenceSpec(env, [], engine, cfg, regexes, wordGen);
    if e.err.Some? then Trace(e.runs, e.log, Some(Wrapped(EquivalenceFlow, e.err.value)))
    else
      var b := BenchmarkSpec(env, e.runs, cfg, regexes, wordGen, augment);
      Trace(e.runs + b.runs, e.log + b.log, if b.err.Some? then Some(Wrapped(BenchmarkFlow, b.err.value)) else None)
  }

  /** Start: the equivalence check, then, only if it succeeded, the
      benchmark check, on the same generated patterns. */
  method Start(env: Env, engine: Engine, cfg: Config, regexes: seq<string>,
               wordGen: WordGenerator, augment: Augmenter)
    returns (t: Trace)
    ensures t == StartSpec(env, engine, cfg, regexes, wordGen, augment)
  {
    var e := EquivalenceCheck(env, [], engine, cfg, regexes, wordGen);
    if e.err.Some? {
      return Trace(e.runs, e.log, Some(Wrapped(EquivalenceFlow, e.err.value)));
    }
    var b := BenchmarkCheck(env, e.runs, cfg, regexes, wordGen, augment);
    if b.err.Some? {
      return Trace(e.runs + b.runs, e.log + b.log, Some(Wrapped(BenchmarkFlow, b.err.value)));
    }
    t := Trace(e.runs + b.runs, e.log + b.log, None);
  }

  /** Preparing a batch starts the transformer at most once, and only once
      word generation succeeded, on the generated patterns. */
  lemma PrepareRunsTransformerOnce(env: Env, h: seq<Run>, binary: string, regexes: seq<string>,
                                   countWords: int, maxDumpSize: int, wordGen: WordGenerator)
    ensures var p := PrepareSpec(env, h, binary, regexes, countWords, maxDumpSize, wordGen);
      var g := wordGen(regexes, countWords, maxDumpSize);
      (g.None? ==> p.runs == [] && p.result.Err?) &&
      (g.Some? ==> p.runs == [Transform(binary, EncodeLines(Befores(g.value)))])
  {
  }

  /** The equivalence flow never starts a matcher. */
  lemma EquivalenceRunsNoMatcher(env: Env, h: seq<Run>, engine: Engine, cfg: Config,
                                 regexes: seq<string>, wordGen: WordGenerator)
    ensures var t := EquivalenceSpec(env, h, engine, cfg, regexes, wordGen);
      |t.runs| <= 1 && forall i :: 0 <= i < |t.runs| ==> t.runs[i].Transform?
  {
  }

  /** Every run of the benchmark flow after its transformer run is a matcher
      run, and the transformer runs first. */
  lemma BenchmarkRunOrder(env: Env, h: seq<Run>, cfg: Config, regexes: seq<string>,
                          wordGen: WordGenerator, augment: Augmenter)
    ensures var t := BenchmarkSpec(env, h, cfg, regexes, wordGen, augment);
      forall i :: 0 <= i < |t.runs| ==> (t.runs[i].Transform? <==> i == 0)
  {
    var p := PrepareSpec(env, h, cfg.rustBinaryPath, regexes, cfg.benchCountWords, cfg.benchMaxDumpSize, wordGen);
    if p.result.Ok? && augment(p.result.value).Some? {
      BenchRunsOnlyMatchers(env, h + p.runs, augment(p.result.value).value);
    }
  }

  /** A failed equivalence check ends Start: the benchmark flow generates
      nothing and starts nothing, so no matcher ever runs. */
  lemma StartStopsAfterFailedEquivalence(env: Env, engine: Engine, cfg: Config, regexes: seq<string>,
                                         wordGen: WordGenerator, augment: Augmenter)
    requires EquivalenceSpec(env, [], engine, cfg, regexes, wordGen).err.Some?
    ensures var t := StartSpec(env, engine, cfg, regexes, wordGen, augment);
      t.runs == EquivalenceSpec(env, [], engine, cfg, regexes, wordGen).runs &&
      |t.runs| <= 1 && (forall i :: 0 <= i < |t.runs| ==> t.runs[i].Transform?) &&
      t.err.Some? && t.err.value.Wrapped? && t.err.value.context == EquivalenceFlow
  {
    EquivalenceRunsNoMatcher(env, [], engine, cfg, regexes, wordGen);
  }

  /** The order of all runs Start makes: the equivalence flow's transformer
      run, the benchmark flow's transformer run, then only matcher runs. */
  lemma StartRunOrder(env: Env, engine: Engine, cfg: Config, regexes: seq<string>,
                      wordGen: WordGenerator, augment: Augmenter)
    ensures var t := StartSpec(env, engine, cfg, regexes, wordGen, augment);
      forall i :: 0 <= i < |t.runs| ==> (t.runs[i].Transform? <==> i < 2)
  {
    var e := EquivalenceSpec(env, [], engine, cfg, regexes, wordGen);
    EquivalenceRunsNoMatcher(env, [], engine, cfg, regexes, wordGen);
    if e.err.None? {
      BenchmarkRunOrder(env, e.runs, cfg, regexes, wordGen, augment);
      assert |e.runs| == 1;
    }
  }
}
