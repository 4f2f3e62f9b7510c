# Regex transformation benchmark harness — Dafny model

This project models the harness in `lab2/internal/benchmark/benchmark.go`. The harness takes a batch of generated regular expressions and sends them through an external transformer binary. Each record then holds the pattern as generated ("before") and the transformer's output ("after"). Two flows follow:

- **Equivalence flow.** Both patterns of every record get `^` in front and `$` after them, and are tested on every word of the record. This is string concatenation, so for a pattern whose top level is an alternation (`a|b` becomes `^a|b$`) only the outer branches are anchored. One log line per word says whether the two patterns agree.
- **Benchmark flow.** An external matcher script runs once per pattern: the before pattern first, then the after pattern, record after record. The first failure ends the flow.

`Start` runs the equivalence flow first. The benchmark flow runs only if the equivalence flow succeeded.

Modules:

- `Lines` (`lines.dfy`): the newline protocol. It covers how a batch is written to a child's standard input and how the transformer's output is read back. Reading back follows Go's `strings.TrimSuffix` and `strings.Split`.
- `Types` (`types.dfy`): the records (`RegexesWithWords`), external runs, outcomes, errors with their context layers, log lines and traces.
- `Conversion` (`conversion.dfy`): the batch transformer client, in place on an `array` of records.
- `Equivalence` (`equivalence.dfy`): the per-word verdicts.
- `Runner` (`runner.dfy`): the matcher runner and the benchmark coordinator.
- `Harness` (`harness.dfy`): `prepareEnvironment`, the two flows and `Start`.

External programs are not run. Every run the harness would start is recorded as a `Run` value:

- for the transformer: the binary and the standard input it gets;
- for the matcher: the quoted pattern argument, the standard input and the time budget in seconds.

An environment `Env` gives the outcome of each run. It sees the whole trace so far, so repeated runs may end differently. The two flows, the benchmark coordinator and `Start` each return a `Trace`: the runs in order, the data-carrying log lines and the error. The regular-expression engine is a parameter `Engine`, so every equivalence property holds for any engine. The word generators are parameters too.

## Model

| member | source | states |
|---|---|---|
| Lines.WriteLines | lab2/internal/benchmark/benchmark.go:123-125 | The buffer filled by the writing loop is every element followed by "\n", in order (`EncodeLines`); it is empty for an empty batch |
| Lines.SplitLines | lab2/internal/benchmark/benchmark.go:133 | `strings.Split(s, "\n")` always yields at least one piece, and no piece contains a line break |
| Lines.TrimNewline | lab2/internal/benchmark/benchmark.go:132 | `strings.TrimSuffix(s, "\n")` returns a prefix of `s` that is at most one character shorter; it is shorter exactly when `s` ends in "\n" |
| Lines.Decode | lab2/internal/benchmark/benchmark.go:132-133 | Reading the transformer output always yields at least one line, and no line contains a line break |
| Lines.DecodeBatch | lab2/internal/benchmark/benchmark.go:132-133 | The corrected reading (empty output means an empty batch) yields only single lines |
| Lines.EncodeIsJoinPlusNewline | lab2/internal/benchmark/benchmark.go:123-125 | A non-empty batch is written as `strings.Join(xs, "\n")` plus one final "\n" |
| Lines.SplitJoin | lab2/internal/benchmark/benchmark.go:133 | Splitting undoes joining, for any non-empty list of strings without line breaks |
| Lines.JoinSplit | lab2/internal/benchmark/benchmark.go:133 | Joining undoes splitting, for every string |
| Lines.DecodeRoundTrip | lab2/internal/benchmark/benchmark.go:123-133 | Round trip: for a non-empty batch with no "\n" in any pattern, decoding what the writing loop produces gives back the batch |
| Lines.EmptyBatchDecodesToOneLine | lab2/internal/benchmark/benchmark.go:123-133 | An empty batch writes nothing, and the empty output decodes to `[""]`, not to `[]` |
| Lines.DecodeBatchRoundTrip | lab2/internal/benchmark/benchmark.go:123-133 | With the empty output read as the empty batch, the round trip holds for every batch, the empty one included |
| Lines.EncodeDecode | lab2/internal/benchmark/benchmark.go:132-133 | Decoding loses nothing: an output ending in "\n" equals the encoding of its lines, and any other output equals their join |
| Equivalence.Anchor | lab2/internal/benchmark/benchmark.go:65 | The anchored pattern is `^`, then the unchanged pattern, then `$` |
| Equivalence.MatchString | lab2/internal/benchmark/benchmark.go:74-75 | `regexp.MatchString` with its error discarded: true exactly when the engine compiles the pattern and it matches; a pattern that does not compile matches nothing |
| Equivalence.EqualMatched | lab2/internal/benchmark/benchmark.go:73-77 | `equalMatched`: the two patterns agree on the word exactly when both match or neither matches, a compile error counting as no match |
| Equivalence.Verdict | lab2/internal/benchmark/benchmark.go:65-69 | The line logged for a word is OK or a mismatch for that same word, and OK exactly when the two anchored patterns agree on it |
| Equivalence.WordsLog | lab2/internal/benchmark/benchmark.go:63-71 | One log line per word, in order. The line for word i is OK exactly when the two anchored patterns agree on it, and a mismatch exactly when they do not |
| Equivalence.RunWords | lab2/internal/benchmark/benchmark.go:63-71 | The loop tests every word with no early exit and logs exactly `WordsLog` |
| Equivalence.CompareRegexWithWords | lab2/internal/benchmark/benchmark.go:56-61 | The loop logs, for every record in order, a comparison header followed by that record's word verdicts |
| Equivalence.CompareLogLength | lab2/internal/benchmark/benchmark.go:56-71 | Nothing is skipped: the comparison log has one header per record plus one line per word over all records |
| Equivalence.EqualMatchedSymmetric | lab2/internal/benchmark/benchmark.go:73-77 | `equalMatched(p1, p2, w) == equalMatched(p2, p1, w)` |
| Equivalence.EqualMatchedReflexive | lab2/internal/benchmark/benchmark.go:73-77 | `equalMatched(p, p, w)` holds whatever the engine does |
| Equivalence.BadPatternMatchesNothing | lab2/internal/benchmark/benchmark.go:74-75 | A match error counts as "no match". So when one pattern does not compile, the verdict is OK exactly when the other pattern rejects the word |
| Equivalence.WordsLogSwap | lab2/internal/benchmark/benchmark.go:63-77 | Swapping the before and after patterns changes none of a record's verdicts |
| Equivalence.IdenticalPatternsPass | lab2/internal/benchmark/benchmark.go:63-77 | A record whose after pattern equals its before pattern gets OK for every word |
| Equivalence.DifferentPatternsMismatch | lab2/internal/benchmark/benchmark.go:63-77 | Before "a", after "b", word "a": an engine that matches "^a$" and rejects "^b$" on "a" yields exactly one line, a mismatch on "a" |
| Equivalence.SwappedAlternationMismatch | lab2/internal/benchmark/benchmark.go:63-69 | Because the anchors are added by concatenation, two equivalent alternations, `a` or `b` against `b` or `a`, are reported as a mismatch on the word `ab` by an engine that reads `^a` or `b$` the way Go's regexp precedence does |
| Conversion.ConversionRegularExpression | lab2/internal/benchmark/benchmark.go:115-140 | As written, in place. The run's stdin is every before pattern plus "\n". A failed run returns an error and leaves every record unchanged. Otherwise, for each decoded line i, record i's after becomes line i, and records past the last line are unchanged. Precondition: no more lines than records |
| Conversion.ConversionChecked | lab2/internal/benchmark/benchmark.go:115-140 | Corrected, in place. Same run and failure rule. An answer with a different line count than records returns `LineCountMismatch` and leaves the batch unchanged. Otherwise the batch becomes `ConversionSpec`'s result |
| Conversion.ConversionPairsPositionally | lab2/internal/benchmark/benchmark.go:132-137 | After a successful conversion, there is one after per before, the i-th after is the i-th output line, and every before pattern and word list is unchanged |
| Conversion.ConversionRecoversAnswers | lab2/internal/benchmark/benchmark.go:123-137 | When the transformer answers with one line per pattern, the records receive exactly those lines, in order, for every batch size including 0 |
| Conversion.EchoKeepsPatterns | lab2/internal/benchmark/benchmark.go:123-137 | A transformer that echoes its input gives each record its own pattern back as its after |
| Conversion.EmptyBatchOverruns | lab2/internal/benchmark/benchmark.go:132-137 | Whatever the transformer prints, decoding yields at least one line. An empty batch therefore always violates the assignment's index bound |
| Runner.Quote | lab2/internal/benchmark/benchmark.go:184 | The matcher argument is the pattern inside literal double quotes, and the pattern can be read back from it |
| Runner.MatcherRun | lab2/internal/benchmark/benchmark.go:184-203 | A matcher run gets the quoted pattern as its argument and a budget of one second per word, and its standard input reads back, line by line, as exactly the words whenever no word contains a line break |
| Runner.ScriptResult | lab2/internal/benchmark/benchmark.go:194-223 | Only a start failure or an exit error is an error: a start failure gives the start error, and an exit error carries its stderr text. Any other wait error is ignored. The returned output is stdout with exactly one trailing "\n" removed when it ends in one, and stdout unchanged otherwise |
| Runner.RunOneRegex | lab2/internal/benchmark/benchmark.go:183-224 | The matcher gets the quoted pattern as its argument, every word plus "\n" on stdin and a budget of `len(words)` seconds. Its result is what the runner makes of that run's outcome |
| Runner.RunPair | lab2/internal/benchmark/benchmark.go:153-181 | Computes exactly `PairSpec`: the before run, then the after run only if the before run succeeded, then the two status lines |
| Runner.PairOrder | lab2/internal/benchmark/benchmark.go:153-168 | A record's first run is its before run. The after run happens exactly when the before run succeeded, and the record succeeds exactly when both runs did |
| Runner.RunBenchmarks | lab2/internal/benchmark/benchmark.go:142-151 | The loop computes exactly `BenchSpec`: the records in order, stopping at the first failing one and wrapping its error |
| Runner.FullRunsAt | lab2/internal/benchmark/benchmark.go:142-168 | In a batch with no failure, record m's before run is at position 2m and its after run at 2m+1 |
| Runner.BenchRunsEveryPair | lab2/internal/benchmark/benchmark.go:142-151 | A batch with no failure runs every record, before then after, in order (`FullRuns`), and logs two lines per record |
| Runner.BenchStopsAtFirstFailure | lab2/internal/benchmark/benchmark.go:142-168 | When the batch fails at record k: records 0..k-1 ran in full and logged, record k's own runs failed and its error is returned, and no later record ran |
| Runner.BenchRunsOnlyMatchers | lab2/internal/benchmark/benchmark.go:142-151 | The coordinator starts only matcher runs |
| Harness.PrepareEnvironment | lab2/internal/benchmark/benchmark.go:98-113 | Computes exactly `PrepareSpec`: generate words (the error is wrapped), then convert the generated records in place (the error is wrapped) |
| Harness.PrepareRunsTransformerOnce | lab2/internal/benchmark/benchmark.go:98-113 | A failed word generation starts nothing. Otherwise the transformer runs exactly once, on the generated before patterns |
| Harness.EquivalenceCheck | lab2/internal/benchmark/benchmark.go:45-54 | Computes exactly `EquivalenceSpec`: prepare the batch, then, if that succeeded, log the comparison of every record |
| Harness.EquivalenceRunsNoMatcher | lab2/internal/benchmark/benchmark.go:45-54 | The equivalence flow starts at most one run, and it is a transformer run |
| Harness.BenchmarkCheck | lab2/internal/benchmark/benchmark.go:79-96 | Computes exactly `BenchmarkSpec`: prepare, augment (its error is returned unwrapped), then run the coordinator on the augmented records |
| Harness.BenchmarkRunOrder | lab2/internal/benchmark/benchmark.go:79-96 | In the benchmark flow, the transformer run comes first and every later run is a matcher run |
| Harness.Start | lab2/internal/benchmark/benchmark.go:26-43 | Computes exactly `StartSpec`: the equivalence flow, then, only if it succeeded, the benchmark flow on the same patterns, with each flow's error wrapped |
| Harness.StartStopsAfterFailedEquivalence | lab2/internal/benchmark/benchmark.go:32-35 | If the equivalence check fails, `Start` returns its wrapped error. At most one transformer run happens, and no benchmark run at all |
| Harness.StartRunOrder | lab2/internal/benchmark/benchmark.go:26-43 | Across all of `Start`, only the first two runs can be transformer runs, and every later run is a matcher run |

## Left out

- Process creation and lifecycle are not modelled: `exec.Command`, `Start`, `Run`, `Wait` and the inspection of exit errors. Each run's outcome comes from the environment instead.
- The stderr passthrough to the harness's own standard error is not modelled, because it is I/O.
- The timeout goroutine and `Process.Kill` are not modelled, because they are concurrency. Only the budget of `len(words)` seconds is recorded in each matcher run. Under Go's `os/exec`, a process killed at the end of its budget ends with an exit error, so the runner reports a failure. The environment decides each run's outcome, so the model covers both that case and the "other wait error" case, which the runner ignores.
- `Runner.RunOneRegex` assumes the matcher receives the whole encoded word list. The source fills the stdin buffer only after `cmd.Start`, while `os/exec` already copies that buffer to the child in another goroutine. The child may therefore see fewer words. That race is concurrency and is not modelled.
- `Types.Outcome.ExitFailed` carries whatever text the environment supplies. In the source, `ExitError.Stderr` is only filled by `Cmd.Output`, so the text in "failed to wait script" is empty there.
- Wall-clock measurement (`time.Now`, `time.Since`) and the logged durations are not modelled, because their values are not deterministic. The timing log lines keep the pattern and status only.
- The separator log line and the log formatting are not modelled.
- `regexp.MatchString` is not modelled. It is the `Engine` parameter, and a compile error is reported as `BadPattern`.
- `reggen.Generate`, `wordgen.GenerateWordsForRegexes` and `wordgen.GenerateWordsForBenchmarkRegexes` are not part of this model. They are inputs: the `regexes` argument, `WordGenerator` and `Augmenter`.
- The package-level script path (`runtime.Caller`, `filepath.Dir`) is left out of `Run`, because it is environment. The matcher is started as `python3 <script> <argument>`, and only the argument is recorded.
- Harness.PrepareEnvironment: converts with `Conversion.ConversionChecked`, the corrected conversion (see Findings), instead of the as-written `Conversion.ConversionRegularExpression`. The two differ whenever the number of lines read back is not the number of records, and the flows and `Start` inherit every difference. A transformer answer with fewer lines than records is reported as `LineCountMismatch`, where the source keeps the old after patterns of the remaining records. In particular a one-record batch whose transformer prints nothing is `LineCountMismatch(1, 0)`, where the source reads `""` as one line and sets that record's after pattern to the empty string without error. An answer with more lines than records is `LineCountMismatch`, where the source indexes one past the end and panics. An empty batch converts to an empty batch, where the source indexes out of range.

## Findings

| source | as written | input that shows it | evidently intended | confidence | as-written member | corrected member |
|---|---|---|---|---|---|---|
| lab2/internal/benchmark/benchmark.go:132-137 | The transformer output is decoded with `TrimSuffix` and `Split`, and each line is assigned to `rww[i]` without checking the count | An empty batch (no generated patterns): nothing is written, the output "" decodes to `[""]`, and `rww[0]` is out of range on a zero-length slice. Also any answer with more lines than records | An empty output is an empty batch, and an answer whose line count differs from the batch size is an error, not a panic or a silent misalignment | not executed | Conversion.ConversionRegularExpression | Conversion.ConversionChecked |
