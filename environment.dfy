/** The environment store that builder.go receives as the `Env` interface. Its
    concrete implementation is not part of this model: the store is seen from the
    outside, as the calls made on it, whether each call fails, and what `List()`
    yields after a given history of calls. */
module Environment {
  import opened Errors

  /** One call on the store, with the path it was given. */
  datatype Call =
    | AppendDirs(baseDir: string)
    | SetEnvDir(envDir: string)
    | AddEnvDir(envDir: string)

  /** The behaviour of a store: `respond(calls, c)` is the error (if any) of call
      `c` made after `calls`, and `list(calls)` the `KEY=VALUE` list after `calls`. */
  datatype EnvOracle = EnvOracle(
    respond: (seq<Call>, Call) -> Option<Error>,
    list: seq<Call> -> seq<string>)

  /** A store that records every call made on it, failed ones included. */
  class Env {
    var trace: seq<Call>
    const oracle: EnvOracle

    constructor (oracle: EnvOracle)
      ensures trace == [] && this.oracle == oracle
    {
      this.oracle := oracle;
      trace := [];
    }

    method AppendDirs(baseDir: string) returns (err: Option<Error>)
      modifies this
      ensures trace == old(trace) + [Call.AppendDirs(baseDir)]
      ensures err == oracle.respond(old(trace), Call.AppendDirs(baseDir))
    {
      err := oracle.respond(trace, Call.AppendDirs(baseDir));
      trace := trace + [Call.AppendDirs(baseDir)];
    }

    method AddEnvDir(envDir: string) returns (err: Option<Error>)
      modifies this
      ensures trace == old(trace) + [Call.AddEnvDir(envDir)]
      ensures err == oracle.respond(old(trace), Call.AddEnvDir(envDir))
    {
      err := oracle.respond(trace, Call.AddEnvDir(envDir));
      trace := trace + [Call.AddEnvDir(envDir)];
    }

    method SetEnvDir(envDir: string) returns (err: Option<Error>)
      modifies this
      ensures trace == old(trace) + [Call.SetEnvDir(envDir)]
      ensures err == oracle.respond(old(trace), Call.SetEnvDir(envDir))
    {
      err := oracle.respond(trace, Call.SetEnvDir(envDir));
      trace := trace + [Call.SetEnvDir(envDir)];
    }

    /** The materialised environment: what the store's behaviour gives for the
        calls made so far, so two stores with one behaviour and one history list
        the same variables. */
    function List(): (r: seq<string>)
      reads this
      ensures r == oracle.list(trace)
    {
      oracle.list(trace)
    }
  }

  /** The calls `cs` made one after another on a store whose history is `t`,
      stopping after the first that fails: the new history and that error. */
  function RunCalls(o: EnvOracle, t: seq<Call>, cs: seq<Call>): (seq<Call>, Option<Error>)
    decreases |cs|
  {
    if cs == [] then (t, None)
    else
      var (t', e) := RunCalls(o, t, cs[..|cs| - 1]);
      if e.Some? then (t', e)
      else (t' + [cs[|cs| - 1]], o.respond(t', cs[|cs| - 1]))
  }

  /** Running one more call: made only if the earlier ones all succeeded. */
  lemma RunCallsSnoc(o: EnvOracle, t: seq<Call>, cs: seq<Call>, x: Call)
    ensures RunCalls(o, t, cs + [x]) ==
            var (t', e) := RunCalls(o, t, cs);
            if e.Some? then (t', e) else (t' + [x], o.respond(t', x))
  {
    assert (cs + [x])[..|cs|] == cs;
  }

  /** Running `a + b` is running `a` and, unless it failed, `b` after it. */
  lemma {:induction false} RunCallsAppend(o: EnvOracle, t: seq<Call>, a: seq<Call>, b: seq<Call>)
    ensures RunCalls(o, t, a + b) ==
            var (t1, e1) := RunCalls(o, t, a);
            if e1.Some? then (t1, e1) else RunCalls(o, t1, b)
    decreases |b|
  {
    if b == [] {
      assert a + b == a;
    } else {
      var init := b[..|b| - 1];
      assert (a + b)[..|a + b| - 1] == a + init;
      assert (a + b)[|a + b| - 1] == b[|b| - 1];
      RunCallsAppend(o, t, a, init);
    }
  }

  /** The outcome `(t', e)` of running `cs` after history `t` stops at the first
      error: the history afterwards is the old one plus a prefix of `cs`; every
      call of that prefix but the last succeeded; there is no error exactly when
      all of `cs` was made and its last call succeeded, and otherwise the error is
      that of the last call made. */
  predicate StopsAtFirstError(o: EnvOracle, t: seq<Call>, cs: seq<Call>, t': seq<Call>, e: Option<Error>)
  {
    var n := |t'| - |t|;
    && 0 <= n <= |cs|
    && t' == t + cs[..n]
    && (forall j :: 0 <= j < n - 1 ==> o.respond(t + cs[..j], cs[j]).None?)
    && (e.None? <==> n == |cs| && (n == 0 || o.respond(t + cs[..n - 1], cs[n - 1]).None?))
    && (e.Some? ==> n > 0 && e == o.respond(t + cs[..n - 1], cs[n - 1]))
  }

  /** `RunCalls` stops at the first error (see `StopsAtFirstError`). */
  lemma {:induction false} RunCallsStopsAtFirstError(o: EnvOracle, t: seq<Call>, cs: seq<Call>)
    ensures var (t', e) := RunCalls(o, t, cs);
            StopsAtFirstError(o, t, cs, t', e)
    decreases |cs|
  {
    if cs == [] {
      assert t + cs[..0] == t;
    } else {
      var init := cs[..|cs| - 1];
      var x := cs[|cs| - 1];
      assert cs == init + [x];
      RunCallsStopsAtFirstError(o, t, init);
      var (t1, e1) := RunCalls(o, t, init);
      if e1.Some? {
        StopsAfterFailure(o, t, init, x, t1, e1);
      } else {
        StopsAfterSuccess(o, t, init, x, t1);
      }
    }
  }

  /** A call after a failure is not made. */
  lemma StopsAfterFailure(o: EnvOracle, t: seq<Call>, init: seq<Call>, x: Call, t1: seq<Call>, e1: Option<Error>)
    requires StopsAtFirstError(o, t, init, t1, e1) && e1.Some?
    ensures StopsAtFirstError(o, t, init + [x], t1, e1)
  {
    var cs := init + [x];
    var n := |t1| - |t|;
    assert cs[..n] == init[..n];
    forall j | 0 <= j < n
      ensures cs[..j] == init[..j] && cs[j] == init[j]
    {
    }
  }

  /** A call after calls that all succeeded is made, and its outcome is the run's. */
  lemma StopsAfterSuccess(o: EnvOracle, t: seq<Call>, init: seq<Call>, x: Call, t1: seq<Call>)
    requires StopsAtFirstError(o, t, init, t1, None)
    ensures StopsAtFirstError(o, t, init + [x], t1 + [x], o.respond(t1, x))
  {
    var cs := init + [x];
    assert init[..|init|] == init && cs[..|cs|] == cs && cs[..|init|] == init;
    forall j | 0 <= j < |init|
      ensures cs[..j] == init[..j] && cs[j] == init[j]
    {
    }
  }
}
