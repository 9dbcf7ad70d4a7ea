/** The build-phase orchestrator (`Builder.Build` and `Builder.Develop` in
    builder.go): for each buildpack of the group, in order, make its
    directories, run its executable, compose the environment from its cache
    directory, decode its process declarations and add them to the registry. */
module Lifecycle {
  import opened Errors
  import opened Paths
  import opened Processes
  import opened Environment
  import opened Host
  import opened Layers

  /** A buildpack: its identifier and the directory holding `bin/build` and `bin/develop`. */
  datatype Buildpack = Buildpack(id: string, dir: string)

  /** The orchestrator's configuration. The output streams `Out` and `Err` are
      not modelled. */
  datatype Builder = Builder(platformDir: string, buildpacks: seq<Buildpack>)

  datatype BuildMetadata = BuildMetadata(processes: seq<Process>)

  datatype DevelopMetadata = DevelopMetadata(processes: seq<Process>)

  /** Which orchestrator runs: `Build` carries its launch directory. */
  datatype Mode = BuildMode(launchDir: string) | DevelopMode

  /** Everything a run depends on besides the group and the collaborators' state. */
  datatype Context = Context(
    host: HostOracle, env: EnvOracle,
    platformDir: string, appDir: string, cacheDir: string, mode: Mode)

  /** What became of one buildpack: the state before and after it, and the
      processes it declared or the error that ended the run. */
  datatype Step = Step(start: World, end: World, outcome: Result<seq<Process>>)

  // ---------------------------------------------------------------------------
  // One buildpack.

  /** One iteration of `Build`'s loop, from state `w`. */
  function BuildStep(c: Context, launchDir: string, w: World, bp: Buildpack): (World, Result<seq<Process>>)
  {
    var bpLaunchDir := Join([launchDir, bp.id]);
    var bpCacheDir := Join([c.cacheDir, bp.id]);
    var log1 := w.log + [MkdirAll(bpLaunchDir, Perm)];
    var e1 := c.host.mkdirAll(w.log, bpLaunchDir, Perm);
    if e1.Some? then (World(log1, w.trace), Err(e1.value))
    else
      var log2 := log1 + [MkdirAll(bpCacheDir, Perm)];
      var e2 := c.host.mkdirAll(log1, bpCacheDir, Perm);
      if e2.Some? then (World(log2, w.trace), Err(e2.value))
      else
        var bin := Join([bp.dir, "bin", "build"]);
        var log3 := log2 + [Abs(bin)];
        var buildPath := c.host.abs(log2, bin);
        if buildPath.Err? then (World(log3, w.trace), Err(buildPath.error))
        else
          var cmd := Cmd(buildPath.value, [bpLaunchDir, bpCacheDir, c.platformDir], c.appDir, c.env.list(w.trace));
          var log4 := log3 + [Run(cmd)];
          var e4 := c.host.run(log3, cmd);
          if e4.Some? then (World(log4, w.trace), Err(e4.value))
          else
            var (w5, e5) := SetupEnvSpec(c.host, c.env, World(log4, w.trace), bpCacheDir);
            if e5.Some? then (w5, Err(e5.value))
            else
              var toml := Join([bpLaunchDir, "launch.toml"]);
              var launch := c.host.decodeFile(w5.log, toml);
              var w6 := World(w5.log + [DecodeFile(toml)], w5.trace);
              if launch.Err? then (w6, Err(launch.error)) else (w6, Ok(launch.value.processes))
  }

  /** One iteration of `Develop`'s loop, from state `w`. */
  function DevelopStep(c: Context, w: World, bp: Buildpack): (World, Result<seq<Process>>)
  {
    var bpCacheDir := Join([c.cacheDir, bp.id]);
    var log1 := w.log + [MkdirAll(bpCacheDir, Perm)];
    var e1 := c.host.mkdirAll(w.log, bpCacheDir, Perm);
    if e1.Some? then (World(log1, w.trace), Err(e1.value))
    else
      var cmd := Cmd(Join([bp.dir, "bin", "develop"]), [bpCacheDir, c.platformDir], c.appDir, c.env.list(w.trace));
      var log2 := log1 + [Run(cmd)];
      var e2 := c.host.run(log1, cmd);
      if e2.Some? then (World(log2, w.trace), Err(e2.value))
      else
        var (w3, e3) := SetupEnvSpec(c.host, c.env, World(log2, w.trace), bpCacheDir);
        if e3.Some? then (w3, Err(e3.value))
        else
          var toml := Join([bpCacheDir, "develop.toml"]);
          var develop := c.host.decodeFile(w3.log, toml);
          var w4 := World(w3.log + [DecodeFile(toml)], w3.trace);
          if develop.Err? then (w4, Err(develop.error)) else (w4, Ok(develop.value.processes))
  }

  function StepOf(c: Context, w: World, bp: Buildpack): Step
  {
    var (w', r) := if c.mode.BuildMode? then BuildStep(c, c.mode.launchDir, w, bp) else DevelopStep(c, w, bp);
    Step(w, w', r)
  }

  /** The host calls one buildpack makes when none fails, in order. */
  function Script(c: Context, w: World, bp: Buildpack): seq<Event>
  {
    var bpCacheDir := Join([c.cacheDir, bp.id]);
    if c.mode.BuildMode? then
      var bpLaunchDir := Join([c.mode.launchDir, bp.id]);
      var dirs := [MkdirAll(bpLaunchDir, Perm), MkdirAll(bpCacheDir, Perm)];
      var bin := Join([bp.dir, "bin", "build"]);
      var buildPath := c.host.abs(w.log + dirs, bin);
      var path := if buildPath.Ok? then buildPath.value else bin;
      dirs + [Abs(bin),
              Run(Cmd(path, [bpLaunchDir, bpCacheDir, c.platformDir], c.appDir, c.env.list(w.trace))),
              ReadDir(bpCacheDir),
              DecodeFile(Join([bpLaunchDir, "launch.toml"]))]
    else
      [MkdirAll(bpCacheDir, Perm),
       Run(Cmd(Join([bp.dir, "bin", "develop"]), [bpCacheDir, c.platformDir], c.appDir, c.env.list(w.trace))),
       ReadDir(bpCacheDir),
       DecodeFile(Join([bpCacheDir, "develop.toml"]))]
  }

  /** The error a host call got, if any, when made after `log`. */
  function EventError(ho: HostOracle, log: seq<Event>, e: Event): Option<Error>
  {
    match e
    case MkdirAll(path, perm) => ho.mkdirAll(log, path, perm)
    case Abs(path) => var r := ho.abs(log, path); if r.Err? then Some(r.error) else None
    case Run(cmd) => ho.run(log, cmd)
    case ReadDir(dirname) => var r := ho.readDir(log, dirname); if r.Err? then Some(r.error) else None
    case DecodeFile(path) => var r := ho.decodeFile(log, path); if r.Err? then Some(r.error) else None
  }

  /** The host calls a step made. */
  function EventsIn(s: Step): seq<Event>
  {
    if |s.start.log| <= |s.end.log| then s.end.log[|s.start.log|..] else []
  }

  /** The store calls a step made. */
  function EnvCallsIn(s: Step): seq<Call>
  {
    if |s.start.trace| <= |s.end.trace| then s.end.trace[|s.start.trace|..] else []
  }

  /** Where in the script the executable is run. */
  function RunIndex(m: Mode): nat
  {
    if m.BuildMode? then 3 else 1
  }

  /** What one buildpack's iteration of `Build` or `Develop` does, as step `s`
      started from `w`:
      - the host calls it makes are the script's, in order, up to the first that
        fails, and every call before the last succeeded;
      - the child's environment is `List()` as it stood when the buildpack began;
      - before the directory read no store call is made, and a failing call
        there is the step's error;
      - a failed directory read ends the step with its error and no store call;
      - after a successful read the store calls are `setupEnv`'s, and the step
        stops there exactly when one of them failed, with that error;
      - when all calls were made the result is the decoder's. */
  ghost predicate FollowsScript(c: Context, w: World, bp: Buildpack, s: Step)
  {
    var sc := Script(c, w, bp);
    var ev := EventsIn(s);
    var bpCacheDir := Join([c.cacheDir, bp.id]);
    && s.start == w
    && |sc| == RunIndex(c.mode) + 3
    && sc[RunIndex(c.mode)].Run? && sc[RunIndex(c.mode)].cmd.env == c.env.list(w.trace)
    && s.end.log == w.log + ev
    && 1 <= |ev| <= |sc| && ev == sc[..|ev|]
    && (forall j :: 0 <= j < |ev| - 1 ==> EventError(c.host, w.log + ev[..j], ev[j]).None?)
    && (|ev| < |sc| - 1 ==>
          && s.end.trace == w.trace
          && s.outcome.Err?
          && EventError(c.host, w.log + ev[..|ev| - 1], ev[|ev| - 1]) == Some(s.outcome.error))
    && (|ev| >= |sc| - 1 ==>
          var listing := c.host.readDir(w.log + ev[..|sc| - 2], bpCacheDir);
          && (listing.Err? ==> |ev| == |sc| - 1 && s.end.trace == w.trace && s.outcome == Err(listing.error))
          && (listing.Ok? ==>
                var (t, e) := RunCalls(c.env, w.trace, SetupCalls(bpCacheDir, listing.value));
                && s.end.trace == t
                && (e.Some? <==> |ev| == |sc| - 1)
                && (e.Some? ==> s.outcome == Err(e.value))))
    && (|ev| == |sc| ==>
          var decoded := c.host.decodeFile(w.log + ev[..|sc| - 1], sc[|sc| - 1].path);
          s.outcome == if decoded.Err? then Err(decoded.error) else Ok(decoded.value.processes))
  }

  /** Each buildpack's iteration follows its script (see `FollowsScript`). */
  lemma StepFollowsScript(c: Context, w: World, bp: Buildpack)
    ensures FollowsScript(c, w, bp, StepOf(c, w, bp))
  {
    if c.mode.BuildMode? {
      BuildStepShape(c, c.mode.launchDir, w, bp);
    } else {
      DevelopStepShape(c, w, bp);
    }
  }

  /** `end` is `log` followed by the first `k` calls of `sc`. */
  lemma PrefixOfScript(log: seq<Event>, sc: seq<Event>, k: nat, end: seq<Event>)
    requires k <= |sc| && end == log + sc[..k]
    ensures |log| <= |end| && end[|log|..] == sc[..k]
    ensures forall j :: 0 <= j <= k ==> log + end[|log|..][..j] == log + sc[..j]
  {
    assert end[|log|..] == sc[..k];
  }

  /** The script has the directory read and the decode as its last two calls, and
      runs the child with the environment `List()` gives before the buildpack. */
  lemma ScriptShape(c: Context, w: World, bp: Buildpack)
    ensures var sc := Script(c, w, bp);
            && |sc| == RunIndex(c.mode) + 3
            && sc[RunIndex(c.mode)].Run? && sc[RunIndex(c.mode)].cmd.env == c.env.list(w.trace)
            && sc[|sc| - 2] == ReadDir(Join([c.cacheDir, bp.id]))
            && sc[|sc| - 1].DecodeFile?
  {
  }

  /** A step that made the first `k` calls of its script, with the outcomes
      `FollowsScript` asks for, follows its script. */
  lemma FollowsFromPrefix(c: Context, w: World, bp: Buildpack, s: Step, k: nat)
    requires var sc := Script(c, w, bp);
             var bpCacheDir := Join([c.cacheDir, bp.id]);
             && s.start == w
             && 1 <= k <= |sc|
             && s.end.log == w.log + sc[..k]
             && (forall j :: 0 <= j < k - 1 ==> EventError(c.host, w.log + sc[..j], sc[j]).None?)
             && (k < |sc| - 1 ==>
                   && s.end.trace == w.trace
                   && s.outcome.Err?
                   && EventError(c.host, w.log + sc[..k - 1], sc[k - 1]) == Some(s.outcome.error))
             && (k >= |sc| - 1 ==>
                   var listing := c.host.readDir(w.log + sc[..|sc| - 2], bpCacheDir);
                   && (listing.Err? ==> k == |sc| - 1 && s.end.trace == w.trace && s.outcome == Err(listing.error))
                   && (listing.Ok? ==>
                         var (t, e) := RunCalls(c.env, w.trace, SetupCalls(bpCacheDir, listing.value));
                         && s.end.trace == t
                         && (e.Some? <==> k == |sc| - 1)
                         && (e.Some? ==> s.outcome == Err(e.value))))
             && (k == |sc| ==>
                   var decoded := c.host.decodeFile(w.log + sc[..|sc| - 1], sc[|sc| - 1].path);
                   s.outcome == if decoded.Err? then Err(decoded.error) else Ok(decoded.value.processes))
    ensures FollowsScript(c, w, bp, s)
  {
    ScriptShape(c, w, bp);
    PrefixOfScript(w.log, Script(c, w, bp), k, s.end.log);
  }

  /** Every host call of the script up to and including the run of the
      executable succeeds, when each is made after the ones before it. */
  predicate PreludeSucceeds(c: Context, w: World, bp: Buildpack)
  {
    var sc := Script(c, w, bp);
    && RunIndex(c.mode) < |sc|
    && forall j :: 0 <= j <= RunIndex(c.mode) ==> EventError(c.host, w.log + sc[..j], sc[j]).None?
  }

  lemma BuildStepShape(c: Context, launchDir: string, w: World, bp: Buildpack)
    requires c.mode == BuildMode(launchDir)
    ensures FollowsScript(c, w, bp, StepOf(c, w, bp))
  {
    if PreludeSucceeds(c, w, bp) {
      BuildStepLate(c, launchDir, w, bp);
    } else {
      BuildStepEarly(c, launchDir, w, bp);
    }
  }

  /** A buildpack of `Build` that fails before `setupEnv` follows its script. */
  lemma BuildStepEarly(c: Context, launchDir: string, w: World, bp: Buildpack)
    requires c.mode == BuildMode(launchDir)
    requires !PreludeSucceeds(c, w, bp)
    ensures FollowsScript(c, w, bp, StepOf(c, w, bp))
  {
    var ho := c.host;
    var bpLaunchDir := Join([launchDir, bp.id]);
    var bpCacheDir := Join([c.cacheDir, bp.id]);
    var sc := Script(c, w, bp);
    var s := StepOf(c, w, bp);
    var log1 := w.log + [MkdirAll(bpLaunchDir, Perm)];
    var log2 := log1 + [MkdirAll(bpCacheDir, Perm)];
    var bin := Join([bp.dir, "bin", "build"]);
    var log3 := log2 + [Abs(bin)];
    assert w.log + sc[..0] == w.log;
    assert log1 == w.log + sc[..1] && log2 == w.log + sc[..2] && log3 == w.log + sc[..3];
    if ho.mkdirAll(w.log, bpLaunchDir, Perm).Some? {
      FollowsFromPrefix(c, w, bp, s, 1);
    } else if ho.mkdirAll(log1, bpCacheDir, Perm).Some? {
      FollowsFromPrefix(c, w, bp, s, 2);
    } else if ho.abs(log2, bin).Err? {
      FollowsFromPrefix(c, w, bp, s, 3);
    } else {
      assert EventError(ho, w.log + sc[..3], sc[3]).Some?;
      assert log3 + [sc[3]] == w.log + sc[..4];
      FollowsFromPrefix(c, w, bp, s, 4);
    }
  }

  /** A buildpack of `Build` that reaches `setupEnv` follows its script. */
  lemma BuildStepLate(c: Context, launchDir: string, w: World, bp: Buildpack)
    requires c.mode == BuildMode(launchDir)
    requires PreludeSucceeds(c, w, bp)
    ensures FollowsScript(c, w, bp, StepOf(c, w, bp))
  {
    var ho := c.host;
    var bpCacheDir := Join([c.cacheDir, bp.id]);
    var sc := Script(c, w, bp);
    var bpLaunchDir := Join([launchDir, bp.id]);
    var log1 := w.log + [MkdirAll(bpLaunchDir, Perm)];
    var log2 := log1 + [MkdirAll(bpCacheDir, Perm)];
    var log3 := log2 + [Abs(Join([bp.dir, "bin", "build"]))];
    var log4 := log3 + [sc[3]];
    assert w.log + sc[..0] == w.log;
    assert log1 == w.log + sc[..1] && log2 == w.log + sc[..2] && log3 == w.log + sc[..3];
    assert log4 == w.log + sc[..4];
    var (w5, e5) := SetupEnvSpec(ho, c.env, World(log4, w.trace), bpCacheDir);
    assert w5.log == w.log + sc[..5];
    if e5.Some? {
      BuildStepSetupFails(c, launchDir, w, bp);
    } else {
      BuildStepSetupSucceeds(c, launchDir, w, bp);
    }
  }

  /** When the script's first four calls succeed, `BuildStep` makes exactly
      them: each of its checks passes and the log it hands to `setupEnv` is the
      script's first four calls after `w.log`. */
  lemma PreludeLogs(c: Context, launchDir: string, w: World, bp: Buildpack)
    requires c.mode == BuildMode(launchDir) && PreludeSucceeds(c, w, bp)
    ensures var sc := Script(c, w, bp);
            var bpLaunchDir := Join([launchDir, bp.id]);
            var bpCacheDir := Join([c.cacheDir, bp.id]);
            var log1 := w.log + [MkdirAll(bpLaunchDir, Perm)];
            var log2 := log1 + [MkdirAll(bpCacheDir, Perm)];
            var bin := Join([bp.dir, "bin", "build"]);
            var log3 := log2 + [Abs(bin)];
            && c.host.mkdirAll(w.log, bpLaunchDir, Perm).None?
            && c.host.mkdirAll(log1, bpCacheDir, Perm).None?
            && c.host.abs(log2, bin).Ok?
            && var cmd := Cmd(c.host.abs(log2, bin).value, [bpLaunchDir, bpCacheDir, c.platformDir], c.appDir, c.env.list(w.trace));
               && c.host.run(log3, cmd).None?
               && log3 + [Run(cmd)] == w.log + sc[..4]
  {
    var sc := Script(c, w, bp);
    var bpLaunchDir := Join([launchDir, bp.id]);
    var bpCacheDir := Join([c.cacheDir, bp.id]);
    var log1 := w.log + [MkdirAll(bpLaunchDir, Perm)];
    var log2 := log1 + [MkdirAll(bpCacheDir, Perm)];
    assert log2 == w.log + [MkdirAll(bpLaunchDir, Perm), MkdirAll(bpCacheDir, Perm)];
    assert sc[0] == MkdirAll(bpLaunchDir, Perm) && sc[1] == MkdirAll(bpCacheDir, Perm);
    var bin := Join([bp.dir, "bin", "build"]);
    assert sc[2] == Abs(bin);
    assert sc[3] == Run(Cmd(c.host.abs(log2, bin).value, [bpLaunchDir, bpCacheDir, c.platformDir], c.appDir, c.env.list(w.trace)));
    assert w.log + sc[..0] == w.log;
    assert w.log + sc[..1] == w.log + [sc[0]];
    assert w.log + sc[..2] == w.log + [sc[0], sc[1]];
    assert w.log + sc[..3] == w.log + [sc[0], sc[1], sc[2]];
    assert w.log + sc[..4] == w.log + [sc[0], sc[1], sc[2], sc[3]];
    assert EventError(c.host, w.log + sc[..0], sc[0]).None?;
    assert EventError(c.host, w.log + sc[..1], sc[1]).None?;
    assert EventError(c.host, w.log + sc[..2], sc[2]).None?;
    assert EventError(c.host, w.log + sc[..3], sc[3]).None?;
    var log3 := log2 + [Abs(bin)];
    assert w.log + sc[..2] == log2 && w.log + sc[..3] == log3;
    assert c.host.mkdirAll(w.log, bpLaunchDir, Perm).None?;
    assert c.host.mkdirAll(log1, bpCacheDir, Perm).None?;
    assert c.host.abs(log2, bin).Ok?;
    var cmd := Cmd(c.host.abs(log2, bin).value, [bpLaunchDir, bpCacheDir, c.platformDir], c.appDir, c.env.list(w.trace));
    assert c.host.run(log3, cmd).None?;
    assert log3 + [Run(cmd)] == w.log + sc[..4];
  }

  lemma BuildStepSetupFails(c: Context, launchDir: string, w: World, bp: Buildpack)
    requires c.mode == BuildMode(launchDir)
    requires PreludeSucceeds(c, w, bp)
    requires SetupEnvSpec(c.host, c.env, World(w.log + Script(c, w, bp)[..4], w.trace), Join([c.cacheDir, bp.id])).1.Some?
    ensures FollowsScript(c, w, bp, StepOf(c, w, bp))
  {
    var sc := Script(c, w, bp);
    var bpCacheDir := Join([c.cacheDir, bp.id]);
    PreludeLogs(c, launchDir, w, bp);
    assert w.log + sc[..4] + [ReadDir(bpCacheDir)] == w.log + sc[..5];
    FollowsFromPrefix(c, w, bp, StepOf(c, w, bp), 5);
  }

  lemma BuildStepSetupSucceeds(c: Context, launchDir: string, w: World, bp: Buildpack)
    requires c.mode == BuildMode(launchDir)
    requires PreludeSucceeds(c, w, bp)
    requires SetupEnvSpec(c.host, c.env, World(w.log + Script(c, w, bp)[..4], w.trace), Join([c.cacheDir, bp.id])).1.None?
    ensures FollowsScript(c, w, bp, StepOf(c, w, bp))
  {
    var sc := Script(c, w, bp);
    var bpCacheDir := Join([c.cacheDir, bp.id]);
    PreludeLogs(c, launchDir, w, bp);
    assert w.log + sc[..4] + [ReadDir(bpCacheDir)] == w.log + sc[..5];
    assert w.log + sc[..5] + [sc[5]] == w.log + sc[..6];
    FollowsFromPrefix(c, w, bp, StepOf(c, w, bp), 6);
  }

  lemma DevelopStepShape(c: Context, w: World, bp: Buildpack)
    requires c.mode == DevelopMode
    ensures FollowsScript(c, w, bp, StepOf(c, w, bp))
  {
    var ho := c.host;
    var bpCacheDir := Join([c.cacheDir, bp.id]);
    var sc := Script(c, w, bp);
    var s := StepOf(c, w, bp);
    var log1 := w.log + [MkdirAll(bpCacheDir, Perm)];
    var log2 := log1 + [sc[1]];
    assert w.log + sc[..0] == w.log;
    assert log1 == w.log + sc[..1] && log2 == w.log + sc[..2];
    if ho.mkdirAll(w.log, bpCacheDir, Perm).Some? {
      FollowsFromPrefix(c, w, bp, s, 1);
    } else if ho.run(log1, sc[1].cmd).Some? {
      FollowsFromPrefix(c, w, bp, s, 2);
    } else {
      var (w3, e3) := SetupEnvSpec(ho, c.env, World(log2, w.trace), bpCacheDir);
      assert w3.log == w.log + sc[..3];
      if e3.Some? {
        FollowsFromPrefix(c, w, bp, s, 3);
      } else {
        assert s.end.log == w.log + sc[..4];
        FollowsFromPrefix(c, w, bp, s, 4);
      }
    }
  }

  // ---------------------------------------------------------------------------
  // The group.

  /** The iteration of the orchestrator `c` selects, as a function of the state it
      starts from and the buildpack. */
  function Iteration(c: Context): (World, Buildpack) -> Step
  {
    (w, bp) => StepOf(c, w, bp)
  }

  /** The state after `steps`, which started from `w0`. */
  function EndOf(w0: World, steps: seq<Step>): World
  {
    if steps == [] then w0 else steps[|steps| - 1].end
  }

  /** The run stopped: its last buildpack failed. */
  predicate Failed(steps: seq<Step>)
  {
    steps != [] && steps[|steps| - 1].outcome.Err?
  }

  /** The buildpacks of `bps` handled by `step` one after another from `w0`, each
      from the state the previous one left, none after the first that fails. */
  function Steps(step: (World, Buildpack) -> Step, w0: World, bps: seq<Buildpack>): (steps: seq<Step>)
    ensures |steps| <= |bps|
    decreases |bps|
  {
    if bps == [] then []
    else
      var prev := Steps(step, w0, bps[..|bps| - 1]);
      if Failed(prev) then prev
      else prev + [step(EndOf(w0, prev), bps[|bps| - 1])]
  }

  /** The registry after adding, in order, the processes of every step that succeeded. */
  function MergeOutcomes(m: map<string, Process>, steps: seq<Step>): map<string, Process>
    decreases |steps|
  {
    if steps == [] then m
    else
      var prev := MergeOutcomes(m, steps[..|steps| - 1]);
      var last := steps[|steps| - 1].outcome;
      if last.Ok? then Merge(prev, last.value) else prev
  }

  /** Every process declared by a step that succeeded, in order. */
  function DeclaredProcesses(steps: seq<Step>): seq<Process>
    decreases |steps|
  {
    if steps == [] then []
    else
      var last := steps[|steps| - 1].outcome;
      DeclaredProcesses(steps[..|steps| - 1]) + (if last.Ok? then last.value else [])
  }

  /** Every store call made by `steps`, in order. */
  function EnvCallsOf(steps: seq<Step>): seq<Call>
    decreases |steps|
  {
    if steps == [] then [] else EnvCallsOf(steps[..|steps| - 1]) + EnvCallsIn(steps[|steps| - 1])
  }

  /** Step j is `step` applied to buildpack j, from the state step j-1 left (`w0`
      for the first). */
  predicate Chained(step: (World, Buildpack) -> Step, w0: World, bps: seq<Buildpack>, steps: seq<Step>)
    requires |steps| <= |bps|
  {
    forall j {:trigger bps[j]} :: 0 <= j < |steps| ==> steps[j] == step(if j == 0 then w0 else steps[j - 1].end, bps[j])
  }

  /** The group is handled strictly in order: buildpack j is the j-th step and
      starts from the state the (j-1)-th left; every step but the last succeeded;
      the run stops early only at a failure; and a non-empty group starts at least
      one buildpack. */
  lemma {:induction false} StepsInGroupOrder(step: (World, Buildpack) -> Step, w0: World, bps: seq<Buildpack>)
    ensures var steps := Steps(step, w0, bps);
            && |steps| <= |bps|
            && (bps != [] ==> steps != [])
            && Chained(step, w0, bps, steps)
            && (forall j :: 0 <= j < |steps| - 1 ==> steps[j].outcome.Ok?)
            && (|steps| < |bps| ==> Failed(steps))
    decreases |bps|
  {
    if bps != [] {
      var init := bps[..|bps| - 1];
      StepsInGroupOrder(step, w0, init);
      var prev := Steps(step, w0, init);
      var steps := Steps(step, w0, bps);
      if !Failed(prev) {
        assert steps == prev + [step(EndOf(w0, prev), bps[|bps| - 1])];
        forall j | 0 <= j < |steps|
          ensures steps[j] == step(if j == 0 then w0 else steps[j - 1].end, bps[j])
        {
          if j < |prev| {
            assert steps[j] == prev[j] && init[j] == bps[j];
            if j > 0 {
              assert steps[j - 1] == prev[j - 1];
            }
          } else {
            assert |prev| == |init| && j == |init|;
            if j > 0 {
              assert steps[j - 1] == prev[j - 1];
            }
          }
        }
      } else {
        assert steps == prev && Chained(step, w0, init, prev);
        forall j | 0 <= j < |steps|
          ensures steps[j] == step(if j == 0 then w0 else steps[j - 1].end, bps[j])
        {
          assert init[j] == bps[j];
        }
      }
    }
  }

  /** Once a buildpack has failed, the rest of the group adds nothing: no step of
      any later buildpack is taken. */
  lemma {:induction false} StepsStopAtFailure(step: (World, Buildpack) -> Step, w0: World, bps: seq<Buildpack>, k: nat)
    requires k <= |bps| && Failed(Steps(step, w0, bps[..k]))
    ensures Steps(step, w0, bps) == Steps(step, w0, bps[..k])
    decreases |bps|
  {
    if k < |bps| {
      var init := bps[..|bps| - 1];
      assert init[..k] == bps[..k];
      StepsStopAtFailure(step, w0, init, k);
    } else {
      assert bps[..k] == bps;
    }
  }

  /** Every step's state extends the one it started from: host calls and store
      calls are only ever appended. */
  lemma StepExtends(c: Context, w: World, bp: Buildpack)
    ensures var s := StepOf(c, w, bp);
            && s.start == w
            && s.end.log == w.log + EventsIn(s)
            && s.end.trace == w.trace + EnvCallsIn(s)
  {
    StepFollowsScript(c, w, bp);
    var s := StepOf(c, w, bp);
    var sc := Script(c, w, bp);
    var ev := EventsIn(s);
    var bpCacheDir := Join([c.cacheDir, bp.id]);
    if |ev| >= |sc| - 1 {
      var listing := c.host.readDir(w.log + ev[..|sc| - 2], bpCacheDir);
      if listing.Ok? {
        RunCallsStopsAtFirstError(c.env, w.trace, SetupCalls(bpCacheDir, listing.value));
      }
    }
  }

  /** An iteration that starts from the state it is given and only appends to
      the store's history. */
  ghost predicate Appends(step: (World, Buildpack) -> Step)
  {
    forall w, bp :: step(w, bp).start == w && step(w, bp).end.trace == w.trace + EnvCallsIn(step(w, bp))
  }

  lemma IterationAppends(c: Context)
    ensures Appends(Iteration(c))
  {
    forall w, bp
      ensures Iteration(c)(w, bp).start == w
      ensures Iteration(c)(w, bp).end.trace == w.trace + EnvCallsIn(Iteration(c)(w, bp))
    {
      StepExtends(c, w, bp);
    }
  }

  /** Each step starts where the previous one ended (`w0` for the first) and
      only appends to the store's history. */
  predicate Linked(w0: World, steps: seq<Step>)
  {
    forall j :: 0 <= j < |steps| ==> LinkedAt(w0, steps, j)
  }

  /** Step j starts where step j-1 ended and only appends to the store's history. */
  predicate LinkedAt(w0: World, steps: seq<Step>, j: nat)
    requires j < |steps|
  {
    && steps[j].start == (if j == 0 then w0 else steps[j - 1].end)
    && steps[j].end.trace == steps[j].start.trace + EnvCallsIn(steps[j])
  }

  /** Along linked steps, step j's store history is the initial one followed by
      the store calls of the steps before it. */
  lemma {:induction false} LinkedHistory(w0: World, steps: seq<Step>, j: nat)
    requires Linked(w0, steps) && j < |steps|
    ensures steps[j].start.trace == w0.trace + EnvCallsOf(steps[..j])
    decreases j
  {
    assert LinkedAt(w0, steps, j);
    if j == 0 {
      assert steps[..0] == [];
    } else {
      var prev := steps[j - 1];
      LinkedHistory(w0, steps, j - 1);
      assert LinkedAt(w0, steps, j - 1);
      EnvCallsOfSnoc(steps, j - 1);
      calc {
        steps[j].start.trace;
        prev.start.trace + EnvCallsIn(prev);
        (w0.trace + EnvCallsOf(steps[..j - 1])) + EnvCallsIn(prev);
        w0.trace + (EnvCallsOf(steps[..j - 1]) + EnvCallsIn(prev));
      }
    }
  }

  lemma EnvCallsOfSnoc(steps: seq<Step>, j: nat)
    requires j < |steps|
    ensures EnvCallsOf(steps[..j + 1]) == EnvCallsOf(steps[..j]) + EnvCallsIn(steps[j])
  {
    assert steps[..j + 1][..j] == steps[..j];
  }

  /** The steps of a group run by an appending iteration are linked. */
  lemma StepsLinked(step: (World, Buildpack) -> Step, w0: World, bps: seq<Buildpack>)
    requires Appends(step)
    ensures Linked(w0, Steps(step, w0, bps))
  {
    var steps := Steps(step, w0, bps);
    StepsInGroupOrder(step, w0, bps);
    assert Chained(step, w0, bps, steps);
    forall j | 0 <= j < |steps|
      ensures LinkedAt(w0, steps, j)
    {
      var w := if j == 0 then w0 else steps[j - 1].end;
      assert steps[j] == step(w, bps[j]);
    }
  }

  /** Buildpack j sees the environment composed by buildpacks 0 .. j-1: when its
      executable is run, the environment handed to it is `List()` over the initial
      store history followed by every store call the earlier buildpacks made. */
  lemma EnvComposedByEarlierBuildpacks(c: Context, w0: World, bps: seq<Buildpack>, j: nat)
    requires j < |Steps(Iteration(c), w0, bps)|
    ensures var steps := Steps(Iteration(c), w0, bps);
            var ev := EventsIn(steps[j]);
            |ev| > RunIndex(c.mode) ==>
              && ev[RunIndex(c.mode)].Run?
              && ev[RunIndex(c.mode)].cmd.env == c.env.list(w0.trace + EnvCallsOf(steps[..j]))
  {
    var steps := Steps(Iteration(c), w0, bps);
    StepsInGroupOrder(Iteration(c), w0, bps);
    IterationAppends(c);
    StepsLinked(Iteration(c), w0, bps);
    LinkedHistory(w0, steps, j);
    assert Chained(Iteration(c), w0, bps, steps);
    var w := if j == 0 then w0 else steps[j - 1].end;
    assert steps[j] == StepOf(c, w, bps[j]);
    StepExtends(c, w, bps[j]);
    StepFollowsScript(c, w, bps[j]);
  }

  /** The registry the run builds is the one obtained by adding every declared
      process, buildpack after buildpack, to an empty map. */
  lemma {:induction false} MergeOutcomesFlat(m: map<string, Process>, steps: seq<Step>)
    ensures MergeOutcomes(m, steps) == Merge(m, DeclaredProcesses(steps))
    decreases |steps|
  {
    if steps != [] {
      var init := steps[..|steps| - 1];
      MergeOutcomesFlat(m, init);
      var last := steps[|steps| - 1].outcome;
      if last.Ok? {
        MergeConcat(m, DeclaredProcesses(init), last.value);
      } else {
        assert DeclaredProcesses(steps) == DeclaredProcesses(init) + [];
        assert DeclaredProcesses(init) + [] == DeclaredProcesses(init);
      }
    }
  }

  /** A run that succeeds handled every buildpack, and its registry maps each
      declared type to the declaration of the latest buildpack declaring it (the
      last one within that buildpack): a later buildpack overrides an earlier one. */
  lemma LaterBuildpackOverrides(step: (World, Buildpack) -> Step, w0: World, bps: seq<Buildpack>, j: nat)
    requires !Failed(Steps(step, w0, bps))
    requires j < |DeclaredProcesses(Steps(step, w0, bps))|
    requires var l := DeclaredProcesses(Steps(step, w0, bps));
             forall j' :: j < j' < |l| ==> l[j'].typ != l[j].typ
    ensures |Steps(step, w0, bps)| == |bps|
    ensures var l := DeclaredProcesses(Steps(step, w0, bps));
            && l[j].typ in MergeOutcomes(map[], Steps(step, w0, bps))
            && MergeOutcomes(map[], Steps(step, w0, bps))[l[j].typ] == l[j]
  {
    var steps := Steps(step, w0, bps);
    StepsInGroupOrder(step, w0, bps);
    MergeOutcomesFlat(map[], steps);
    MergeLastWins(map[], DeclaredProcesses(steps), j);
    MergeKeys(map[], DeclaredProcesses(steps));
  }

  /** A registry built from the empty map keeps every entry under its own type. */
  lemma MergeOutcomesKeyed(steps: seq<Step>)
    ensures KeyedByType(MergeOutcomes(map[], steps))
  {
    MergeOutcomesFlat(map[], steps);
    MergeKeyedByType(map[], DeclaredProcesses(steps));
  }

  /** Step `i` of the group extends the steps before it: when it succeeds, the run
      goes on with its processes added to the registry; when it fails, the run
      ends there with its error. */
  lemma NextStep(step: (World, Buildpack) -> Step, w0: World, bps: seq<Buildpack>, i: nat)
    requires i < |bps| && !Failed(Steps(step, w0, bps[..i]))
    ensures var prev := Steps(step, w0, bps[..i]);
            var s := step(EndOf(w0, prev), bps[i]);
            && Steps(step, w0, bps[..i + 1]) == prev + [s]
            && EndOf(w0, prev + [s]) == s.end
            && (s.outcome.Ok? ==>
                  && !Failed(prev + [s])
                  && MergeOutcomes(map[], prev + [s]) == Merge(MergeOutcomes(map[], prev), s.outcome.value))
            && (s.outcome.Err? ==> Steps(step, w0, bps) == prev + [s] && Failed(prev + [s]))
  {
    var prev := Steps(step, w0, bps[..i]);
    var s := step(EndOf(w0, prev), bps[i]);
    assert bps[..i + 1][..i] == bps[..i];
    assert (prev + [s])[..|prev|] == prev;
    if s.outcome.Err? {
      StepsStopAtFailure(step, w0, bps, i + 1);
    }
  }

  // ---------------------------------------------------------------------------
  // The orchestrators.

  /** One iteration of `Build`'s loop: the collaborators end as `BuildStep` says
      and the result is its outcome. */
  method BuildBuildpack(bp: Buildpack, platformDir: string, appDir: string, launchDir: string,
                        cacheDir: string, env: Env, host: Host)
    returns (r: Result<seq<Process>>)
    modifies env, host
    ensures var c := Context(host.oracle, env.oracle, platformDir, appDir, cacheDir, BuildMode(launchDir));
            StepOf(c, old(World(host.log, env.trace)), bp) == Step(old(World(host.log, env.trace)), World(host.log, env.trace), r)
  {
    var bpLaunchDir := Join([launchDir, bp.id]);
    var bpCacheDir := Join([cacheDir, bp.id]);
    var err := host.MkdirAll(bpLaunchDir, Perm);
    if err.Some? {
      return Err(err.value);
    }
    err := host.MkdirAll(bpCacheDir, Perm);
    if err.Some? {
      return Err(err.value);
    }
    var buildPath := host.Abs(Join([bp.dir, "bin", "build"]));
    if buildPath.Err? {
      return Err(buildPath.error);
    }
    var cmd := Cmd(buildPath.value, [bpLaunchDir, bpCacheDir, platformDir], appDir, env.List());
    err := host.Run(cmd);
    if err.Some? {
      return Err(err.value);
    }
    err := SetupEnv(env, host, bpCacheDir);
    if err.Some? {
      return Err(err.value);
    }
    var launch := host.DecodeFile(Join([bpLaunchDir, "launch.toml"]));
    if launch.Err? {
      return Err(launch.error);
    }
    return Ok(launch.value.processes);
  }

  /** One iteration of `Develop`'s loop: the collaborators end as `DevelopStep`
      says and the result is its outcome. */
  method DevelopBuildpack(bp: Buildpack, platformDir: string, appDir: string, cacheDir: string,
                          env: Env, host: Host)
    returns (r: Result<seq<Process>>)
    modifies env, host
    ensures var c := Context(host.oracle, env.oracle, platformDir, appDir, cacheDir, DevelopMode);
            StepOf(c, old(World(host.log, env.trace)), bp) == Step(old(World(host.log, env.trace)), World(host.log, env.trace), r)
  {
    var bpCacheDir := Join([cacheDir, bp.id]);
    var err := host.MkdirAll(bpCacheDir, Perm);
    if err.Some? {
      return Err(err.value);
    }
    var cmd := Cmd(Join([bp.dir, "bin", "develop"]), [bpCacheDir, platformDir], appDir, env.List());
    err := host.Run(cmd);
    if err.Some? {
      return Err(err.value);
    }
    err := SetupEnv(env, host, bpCacheDir);
    if err.Some? {
      return Err(err.value);
    }
    var develop := host.DecodeFile(Join([bpCacheDir, "develop.toml"]));
    if develop.Err? {
      return Err(develop.error);
    }
    return Ok(develop.value.processes);
  }

  /** `Builder.Build`: the collaborators end in the state the group's run leaves
      them; the result is that run's error, or its registry listed by type. */
  method Build(b: Builder, appDir: string, launchDir: string, cacheDir: string, env: Env, host: Host)
    returns (r: Result<BuildMetadata>)
    modifies env, host
    ensures var steps := Steps(Iteration(Context(host.oracle, env.oracle, b.platformDir, appDir, cacheDir, BuildMode(launchDir))),
                               old(World(host.log, env.trace)), b.buildpacks);
            && World(host.log, env.trace) == EndOf(old(World(host.log, env.trace)), steps)
            && (r.Err? <==> Failed(steps))
            && (r.Err? ==> r.error == steps[|steps| - 1].outcome.error)
            && (r.Ok? ==> IsListingOf(r.value.processes, MergeOutcomes(map[], steps)))
  {
    ghost var step := Iteration(Context(host.oracle, env.oracle, b.platformDir, appDir, cacheDir, BuildMode(launchDir)));
    ghost var w0 := World(host.log, env.trace);
    var bps := b.buildpacks;
    var procMap := new ProcessMap();
    var i := 0;
    while i < |bps|
      invariant 0 <= i <= |bps|
      invariant fresh(procMap) && procMap.Valid()
      invariant procMap as object != env && procMap as object != host
      invariant World(host.log, env.trace) == EndOf(w0, Steps(step, w0, bps[..i]))
      invariant !Failed(Steps(step, w0, bps[..i]))
      invariant procMap.entries == MergeOutcomes(map[], Steps(step, w0, bps[..i]))
    {
      ghost var w := World(host.log, env.trace);
      NextStep(step, w0, bps, i);
      var out := BuildBuildpack(bps[i], b.platformDir, appDir, launchDir, cacheDir, env, host);
      assert step(w, bps[i]) == Step(w, World(host.log, env.trace), out);
      if out.Err? {
        return Err(out.error);
      }
      procMap.Add(out.value);
      i := i + 1;
    }
    assert bps[..i] == bps;
    var procs := procMap.List();
    return Ok(BuildMetadata(procs));
  }

  /** `Builder.Develop`: as `Build`, with one directory per buildpack, the
      `bin/develop` executable and `develop.toml`. */
  method Develop(b: Builder, appDir: string, cacheDir: string, env: Env, host: Host)
    returns (r: Result<DevelopMetadata>)
    modifies env, host
    ensures var steps := Steps(Iteration(Context(host.oracle, env.oracle, b.platformDir, appDir, cacheDir, DevelopMode)),
                               old(World(host.log, env.trace)), b.buildpacks);
            && World(host.log, env.trace) == EndOf(old(World(host.log, env.trace)), steps)
            && (r.Err? <==> Failed(steps))
            && (r.Err? ==> r.error == steps[|steps| - 1].outcome.error)
            && (r.Ok? ==> IsListingOf(r.value.processes, MergeOutcomes(map[], steps)))
  {
    ghost var step := Iteration(Context(host.oracle, env.oracle, b.platformDir, appDir, cacheDir, DevelopMode));
    ghost var w0 := World(host.log, env.trace);
    var bps := b.buildpacks;
    var procMap := new ProcessMap();
    var i := 0;
    while i < |bps|
      invariant 0 <= i <= |bps|
      invariant fresh(procMap) && procMap.Valid()
      invariant procMap as object != env && procMap as object != host
      invariant World(host.log, env.trace) == EndOf(w0, Steps(step, w0, bps[..i]))
      invariant !Failed(Steps(step, w0, bps[..i]))
      invariant procMap.entries == MergeOutcomes(map[], Steps(step, w0, bps[..i]))
    {
      ghost var w := World(host.log, env.trace);
      NextStep(step, w0, bps, i);
      var out := DevelopBuildpack(bps[i], b.platformDir, appDir, cacheDir, env, host);
      assert step(w, bps[i]) == Step(w, World(host.log, env.trace), out);
      if out.Err? {
        return Err(out.error);
      }
      procMap.Add(out.value);
      i := i + 1;
    }
    assert bps[..i] == bps;
    var procs := procMap.List();
    return Ok(DevelopMetadata(procs));
  }
}
