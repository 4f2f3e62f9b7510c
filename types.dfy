/** The entities the harness passes around: the batch records, the external
    runs it performs, what the operating system reports about each run,
    the errors it returns and the lines it logs. */
module Types {

  datatype Option<T> = None | Some(value: T)

  datatype Result<T> = Ok(value: T) | Err(error: Error)

  /** One generated pattern: the pattern as generated, the pattern the
      transformer produced for it, and the words to test both on. */
  datatype RegexesWithWords = RegexesWithWords(regexBefore: string, regexAfter: string, words: seq<string>)

  /** An external program the harness starts, with everything it is given. */
  datatype Run =
    | Transform(binary: string, stdin: string)
      // the matcher script is started as `python3 <script> <argument>`
    | Match(argument: string, stdin: string, timeoutSeconds: nat)

  /** What starting and waiting for one external program reports. */
  datatype Outcome =
    | StartFailed                 // the program could not be started
    | ExitFailed(stderr: string)  // waiting returned an exit error
    | WaitFailed(stdout: string)  // waiting returned any other error
    | Exited(stdout: string)      // the program exited normally

  /** The outcome of the last run of the given trace of runs. Taking the
      whole trace lets the environment answer differently each time. */
  type Env = seq<Run> -> Outcome

  /** The regular-expression engine: a match verdict, or a pattern that
      does not compile. */
  datatype MatchOutcome = Matched(matched: bool) | BadPattern

  type Engine = (string, string) -> MatchOutcome

  /** Word generation for a flow: the patterns, the number of words and the
      maximum dump size; None when generation fails. */
  type WordGenerator = (seq<string>, int, int) -> Option<seq<RegexesWithWords>>

  /** The benchmark-only augmentation of the word lists. */
  type Augmenter = seq<RegexesWithWords> -> Option<seq<RegexesWithWords>>

  datatype Config = Config(
    rustBinaryPath: string,
    benchCountWords: int, benchMaxDumpSize: int,
    equivalenceCountWords: int, equivalenceMaxDumpSize: int)

  /** The context each call boundary adds to an error it passes up. */
  datatype Context =
    | GeneratingWords     // "failed in bench start generate words"
    | Converting          // "failed at bench start conversion"
    | BeforeRegex         // "failed to run before regexp"
    | AfterRegex          // "failed to run after regexp"
    | PairScript          // "failed to run pair script"
    | PythonComparison    // "failed at bench start python comparassion"
    | EquivalenceFlow     // "failed equivalence check"
    | BenchmarkFlow       // "failed benchmark check"

  datatype Error =
    | GenerationFailed                           // a word generator failed
    | SimplifierFailed(cause: Outcome)           // "failed to run simplifier"
    | LineCountMismatch(expected: nat, got: nat) // transformer answered with the wrong number of lines
    | ScriptStartFailed                          // "failed to start python script"
    | ScriptWaitFailed(stderr: string)           // "failed to wait script"
    | Wrapped(context: Context, inner: Error)

  /** The log lines that carry data, in the order they are written. */
  datatype LogEntry =
    | Comparing(expected: string, actual: string)
    | WordOk(word: string)
    | WordMismatch(word: string)
    | BeforeTimed(regex: string, status: string)
    | AfterTimed(regex: string, status: string)

  /** What a step of the harness did: the runs it started, in order, the
      lines it logged and the error it returned, if any. */
  datatype Trace = Trace(runs: seq<Run>, log: seq<LogEntry>, err: Option<Error>)
}
