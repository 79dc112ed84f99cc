/**
 * packages/mcp-shared/src/timeout.ts: the client-supplied execution time
 * limit and the spawn options built from it.
 */
module Timeout {
  import opened Wrappers

  /** `TIMEOUT_SCHEMA`: `timeoutSeconds` is absent or a strictly positive number. */
  predicate ValidTimeoutSeconds(t: Option<real>)
  {
    t.None? || t.value > 0.0
  }

  /** What `runCommand` receives: an optional limit in milliseconds and the cancellation signal. */
  datatype SpawnOptions<S> = SpawnOptions(timeoutMs: Option<real>, signal: S)

  /**
   * `buildSpawnOptions(extra, opts)`: a given (non-zero) number of seconds is
   * scaled to milliseconds and beats the server default; with neither there
   * is no limit field at all; the signal is passed through.
   */
  function BuildSpawnOptions<S>(signal: S, timeoutSeconds: Option<real>, defaultTimeoutMs: Option<real>): (r: SpawnOptions<S>)
    ensures r.signal == signal
    ensures timeoutSeconds.Some? && timeoutSeconds.value != 0.0 ==>
      r.timeoutMs.Some? && r.timeoutMs.value / 1000.0 == timeoutSeconds.value
    ensures timeoutSeconds.None? ==> r.timeoutMs == defaultTimeoutMs
    ensures r.timeoutMs.None? <==> (timeoutSeconds.None? || timeoutSeconds.value == 0.0) && defaultTimeoutMs.None?
  {
    var ms := if timeoutSeconds.Some? && timeoutSeconds.value != 0.0 then Some(timeoutSeconds.value * 1000.0)
              else defaultTimeoutMs;
    SpawnOptions(ms, signal)
  }

  /** Every limit the schema admits becomes a positive number of milliseconds, whatever the default. */
  lemma ValidTimeoutIsPositive<S>(signal: S, timeoutSeconds: Option<real>, defaultTimeoutMs: Option<real>)
    requires ValidTimeoutSeconds(timeoutSeconds) && timeoutSeconds.Some?
    ensures var r := BuildSpawnOptions(signal, timeoutSeconds, defaultTimeoutMs);
      r.timeoutMs.Some? && r.timeoutMs.value > 0.0
  {
    var r := BuildSpawnOptions(signal, timeoutSeconds, defaultTimeoutMs);
    assert r.timeoutMs.value / 1000.0 > 0.0;
  }

  /** A longer client limit never yields a shorter spawn limit. */
  lemma TimeoutMonotone<S>(signal: S, a: real, b: real, defaultTimeoutMs: Option<real>)
    requires 0.0 < a <= b
    ensures BuildSpawnOptions(signal, Some(a), defaultTimeoutMs).timeoutMs.value <=
            BuildSpawnOptions(signal, Some(b), defaultTimeoutMs).timeoutMs.value
  {
  }

  /** The schema turns away zero and negative limits and admits fractions of a second. */
  lemma SchemaExamples()
    ensures !ValidTimeoutSeconds(Some(0.0)) && !ValidTimeoutSeconds(Some(-5.0))
    ensures ValidTimeoutSeconds(Some(0.5)) && ValidTimeoutSeconds(None)
  {
  }
  /**
   * The `opts` a handler hands to `buildSpawnOptions`: the client limit, the
   * server default and, for the tools that read URLs on stdin, the text to
   * write there.
   */
  datatype SpawnRequest = SpawnRequest(timeoutSeconds: Option<real>, defaultTimeoutMs: Option<real>, stdinData: Option<string>)

  /**
   * `buildSpawnOptions` as written, applied to what a handler passes: only
   * the limit and the default are read, and `SpawnOptions` has no field for
   * the stdin text.
   */
  function SpawnOptionsFor<S>(signal: S, opts: SpawnRequest): SpawnOptions<S>
  {
    BuildSpawnOptions(signal, opts.timeoutSeconds, opts.defaultTimeoutMs)
  }

  /**
   * As written, the stdin text makes no difference: a request carrying
   * "hello\n" and one carrying no text give the same spawn options, so the
   * text never reaches the process.
   */
  lemma StdinDropped<S>(signal: S, timeoutSeconds: Option<real>, defaultTimeoutMs: Option<real>, text: string)
    ensures SpawnOptionsFor(signal, SpawnRequest(timeoutSeconds, defaultTimeoutMs, Some(text)))
         == SpawnOptionsFor(signal, SpawnRequest(timeoutSeconds, defaultTimeoutMs, None))
  {
  }

  /** The spawn options with the stdin text carried along, as the shared tests expect them. */
  datatype PipedSpawnOptions<S> = PipedSpawnOptions(timeoutMs: Option<real>, signal: S, stdinData: Option<string>)

  /**
   * `buildSpawnOptions` with `stdinData` passed through: the limit and the
   * signal as before, and the stdin text exactly as given, absent when none
   * was given.
   */
  function BuildPipedSpawnOptions<S>(signal: S, opts: SpawnRequest): (r: PipedSpawnOptions<S>)
    ensures r.stdinData == opts.stdinData
    ensures r.signal == signal
    ensures r.timeoutMs == BuildSpawnOptions(signal, opts.timeoutSeconds, opts.defaultTimeoutMs).timeoutMs
  {
    var base := BuildSpawnOptions(signal, opts.timeoutSeconds, opts.defaultTimeoutMs);
    PipedSpawnOptions(base.timeoutMs, signal, opts.stdinData)
  }

  /**
   * Passed through, two different stdin texts give different spawn options,
   * which the as-written options never do.
   */
  lemma PipedStdinDistinguishes<S>(signal: S, timeoutSeconds: Option<real>, defaultTimeoutMs: Option<real>, a: string, b: string)
    requires a != b
    ensures BuildPipedSpawnOptions(signal, SpawnRequest(timeoutSeconds, defaultTimeoutMs, Some(a)))
         != BuildPipedSpawnOptions(signal, SpawnRequest(timeoutSeconds, defaultTimeoutMs, Some(b)))
    ensures SpawnOptionsFor(signal, SpawnRequest(timeoutSeconds, defaultTimeoutMs, Some(a)))
         == SpawnOptionsFor(signal, SpawnRequest(timeoutSeconds, defaultTimeoutMs, Some(b)))
  {
    StdinDropped(signal, timeoutSeconds, defaultTimeoutMs, a);
    StdinDropped(signal, timeoutSeconds, defaultTimeoutMs, b);
  }

  /** The two cases the shared tests check: "hello\n" is passed through, and a request with only a limit has no stdin text. */
  lemma PipedStdinExamples<S>(signal: S)
    ensures BuildPipedSpawnOptions(signal, SpawnRequest(None, None, Some("hello\n"))).stdinData == Some("hello\n")
    ensures var r := BuildPipedSpawnOptions(signal, SpawnRequest(Some(60.0), None, None));
      r.stdinData.None? && r.timeoutMs == Some(60000.0)
  {
  }
}
