/** Environment composition from a buildpack's cache directory (`setupEnv` and
    `eachDir` in builder.go): the layer sub-directories are walked three times,
    once per kind of store call. */
module Layers {
  import opened Errors
  import opened Paths
  import opened Environment
  import opened Host

  /** The state of the collaborators as the model sees it: the host's log and
      the environment store's trace. */
  datatype World = World(log: seq<Event>, trace: seq<Call>)

  /** Which of `setupEnv`'s three callbacks `eachDir` is given. */
  datatype Phase = AppendPhase | SetPhase | AddPhase

  /** The call a callback makes for the layer named `layer` under `cacheDir`. */
  function LayerCall(phase: Phase, cacheDir: string, layer: string): Call
  {
    match phase
    case AppendPhase => Call.AppendDirs(Join([cacheDir, layer]))
    case SetPhase => Call.SetEnvDir(Join([cacheDir, layer, "env", "set"]))
    case AddPhase => Call.AddEnvDir(Join([cacheDir, layer, "env", "add"]))
  }

  /** The position of a call's kind in the composition order. */
  function Rank(c: Call): nat
  {
    match c
    case AppendDirs(_) => 0
    case SetEnvDir(_) => 1
    case AddEnvDir(_) => 2
  }

  /** The names of the directory entries of `files`, in listing order. */
  function Dirs(files: seq<FileInfo>): seq<string>
    decreases |files|
  {
    if files == [] then []
    else
      var f := files[|files| - 1];
      Dirs(files[..|files| - 1]) + (if f.isDir then [f.name] else [])
  }

  /** Listing `a + b` gives the directories of `a` and then those of `b`: the
      filter keeps the order of the listing. */
  lemma {:induction false} DirsAppend(a: seq<FileInfo>, b: seq<FileInfo>)
    ensures Dirs(a + b) == Dirs(a) + Dirs(b)
    decreases |b|
  {
    if b == [] {
      assert a + b == a;
    } else {
      assert (a + b)[..|a + b| - 1] == a + b[..|b| - 1];
      DirsAppend(a, b[..|b| - 1]);
    }
  }

  /** A name is listed exactly when some directory entry carries it; plain
      files never are. */
  lemma {:induction false} DirsMembers(files: seq<FileInfo>, x: string)
    ensures x in Dirs(files) <==> exists j :: 0 <= j < |files| && files[j].isDir && files[j].name == x
    decreases |files|
  {
    if files != [] {
      var init := files[..|files| - 1];
      DirsMembers(init, x);
      if exists j :: 0 <= j < |init| && init[j].isDir && init[j].name == x {
        var j :| 0 <= j < |init| && init[j].isDir && init[j].name == x;
        assert files[j] == init[j];
      }
      if exists j :: 0 <= j < |files| && files[j].isDir && files[j].name == x {
        var j :| 0 <= j < |files| && files[j].isDir && files[j].name == x;
        if j < |init| {
          assert init[j] == files[j];
        }
      }
    }
  }

  /** The calls `eachDir(files, fn)` makes for one phase when none fails: one per
      directory entry, in listing order. */
  function PhaseCalls(phase: Phase, cacheDir: string, files: seq<FileInfo>): seq<Call>
    decreases |files|
  {
    if files == [] then []
    else
      var f := files[|files| - 1];
      PhaseCalls(phase, cacheDir, files[..|files| - 1])
        + (if f.isDir then [LayerCall(phase, cacheDir, f.name)] else [])
  }

  /** The k-th call of a phase is for the k-th directory of the listing. */
  lemma {:induction false} PhaseCallsPerDir(phase: Phase, cacheDir: string, files: seq<FileInfo>)
    ensures |PhaseCalls(phase, cacheDir, files)| == |Dirs(files)|
    ensures forall k :: 0 <= k < |Dirs(files)| ==>
              PhaseCalls(phase, cacheDir, files)[k] == LayerCall(phase, cacheDir, Dirs(files)[k])
    decreases |files|
  {
    if files != [] {
      PhaseCallsPerDir(phase, cacheDir, files[..|files| - 1]);
    }
  }

  lemma {:induction false} PhaseCallsAppend(phase: Phase, cacheDir: string, a: seq<FileInfo>, b: seq<FileInfo>)
    ensures PhaseCalls(phase, cacheDir, a + b) == PhaseCalls(phase, cacheDir, a) + PhaseCalls(phase, cacheDir, b)
    decreases |b|
  {
    if b == [] {
      assert a + b == a;
    } else {
      assert (a + b)[..|a + b| - 1] == a + b[..|b| - 1];
      PhaseCallsAppend(phase, cacheDir, a, b[..|b| - 1]);
    }
  }

  /** The callback `eachDir` is given in phase `phase`: one store call for the layer. */
  method VisitLayer(env: Env, phase: Phase, cacheDir: string, layer: FileInfo) returns (err: Option<Error>)
    modifies env
    ensures env.trace == old(env.trace) + [LayerCall(phase, cacheDir, layer.name)]
    ensures err == env.oracle.respond(old(env.trace), LayerCall(phase, cacheDir, layer.name))
  {
    match phase {
      case AppendPhase =>
        err := env.AppendDirs(Join([cacheDir, layer.name]));
      case SetPhase =>
        err := env.SetEnvDir(Join([cacheDir, layer.name, "env", "set"]));
      case AddPhase =>
        err := env.AddEnvDir(Join([cacheDir, layer.name, "env", "add"]));
    }
  }

  /** One more entry of the listing adds its callback's call if it is a directory. */
  lemma PhaseCallsSnoc(phase: Phase, cacheDir: string, files: seq<FileInfo>, i: nat)
    requires i < |files|
    ensures PhaseCalls(phase, cacheDir, files[..i + 1])
            == PhaseCalls(phase, cacheDir, files[..i])
               + (if files[i].isDir then [LayerCall(phase, cacheDir, files[i].name)] else [])
  {
    assert files[..i + 1][..i] == files[..i];
  }

  /** One more entry of the listing: a plain file adds no call, a directory adds
      its callback's call. */
  lemma EachDirStep(o: EnvOracle, t0: seq<Call>, t: seq<Call>, phase: Phase, cacheDir: string,
                    files: seq<FileInfo>, i: nat)
    requires i < |files|
    requires (t, None) == RunCalls(o, t0, PhaseCalls(phase, cacheDir, files[..i]))
    ensures var c := LayerCall(phase, cacheDir, files[i].name);
            RunCalls(o, t0, PhaseCalls(phase, cacheDir, files[..i + 1]))
            == if files[i].isDir then (t + [c], o.respond(t, c)) else (t, None)
  {
    PhaseCallsSnoc(phase, cacheDir, files, i);
    var done := PhaseCalls(phase, cacheDir, files[..i]);
    if files[i].isDir {
      RunCallsSnoc(o, t0, done, LayerCall(phase, cacheDir, files[i].name));
    } else {
      assert done + [] == done;
    }
  }

  /** Once a callback has failed, the rest of the listing adds nothing. */
  lemma EachDirStops(o: EnvOracle, t0: seq<Call>, phase: Phase, cacheDir: string,
                     files: seq<FileInfo>, i: nat)
    requires i <= |files|
    requires RunCalls(o, t0, PhaseCalls(phase, cacheDir, files[..i])).1.Some?
    ensures RunCalls(o, t0, PhaseCalls(phase, cacheDir, files))
            == RunCalls(o, t0, PhaseCalls(phase, cacheDir, files[..i]))
  {
    assert files == files[..i] + files[i..];
    PhaseCallsAppend(phase, cacheDir, files[..i], files[i..]);
    RunCallsAppend(o, t0, PhaseCalls(phase, cacheDir, files[..i]), PhaseCalls(phase, cacheDir, files[i..]));
  }

  /** `eachDir` with the callback of `phase`: the callback runs for each directory
      entry in order, and the first error it returns ends the walk. */
  method EachDir(env: Env, files: seq<FileInfo>, phase: Phase, cacheDir: string) returns (err: Option<Error>)
    modifies env
    ensures (env.trace, err) == RunCalls(env.oracle, old(env.trace), PhaseCalls(phase, cacheDir, files))
  {
    var i := 0;
    while i < |files|
      invariant 0 <= i <= |files|
      invariant (env.trace, None) == RunCalls(env.oracle, old(env.trace), PhaseCalls(phase, cacheDir, files[..i]))
    {
      var f := files[i];
      EachDirStep(env.oracle, old(env.trace), env.trace, phase, cacheDir, files, i);
      if !f.isDir {
        i := i + 1;
        continue;
      }
      var e := VisitLayer(env, phase, cacheDir, f);
      if e.Some? {
        EachDirStops(env.oracle, old(env.trace), phase, cacheDir, files, i + 1);
        return e;
      }
      i := i + 1;
    }
    assert files[..i] == files;
    return None;
  }

  /** Every call `setupEnv` would make when none fails: all `AppendDirs`, then
      all `SetEnvDir`, then all `AddEnvDir`. */
  function SetupCalls(cacheDir: string, files: seq<FileInfo>): seq<Call>
  {
    PhaseCalls(AppendPhase, cacheDir, files)
      + PhaseCalls(SetPhase, cacheDir, files)
      + PhaseCalls(AddPhase, cacheDir, files)
  }

  /** `setupEnv(env, cacheDir)` as a function of the collaborators' behaviour and
      state: read the directory; if that fails, return its error without touching
      the store, and otherwise make the calls of `SetupCalls` in order, stopping
      at the first that fails. */
  function SetupEnvSpec(ho: HostOracle, eo: EnvOracle, w: World, cacheDir: string): (World, Option<Error>)
  {
    var log := w.log + [ReadDir(cacheDir)];
    var listing := ho.readDir(w.log, cacheDir);
    if listing.Err? then (World(log, w.trace), Some(listing.error))
    else
      var (t, e) := RunCalls(eo, w.trace, SetupCalls(cacheDir, listing.value));
      (World(log, t), e)
  }

  /** The code's three passes, each run only if the one before it succeeded, make
      the same calls and return the same result as one pass over `SetupCalls`. */
  lemma ThreePassesAsOne(eo: EnvOracle, t: seq<Call>, cacheDir: string, files: seq<FileInfo>)
    ensures var (t1, e1) := RunCalls(eo, t, PhaseCalls(AppendPhase, cacheDir, files));
            var (t2, e2) := RunCalls(eo, t1, PhaseCalls(SetPhase, cacheDir, files));
            var (t3, e3) := RunCalls(eo, t2, PhaseCalls(AddPhase, cacheDir, files));
            RunCalls(eo, t, SetupCalls(cacheDir, files))
              == if e1.Some? then (t1, e1) else if e2.Some? then (t2, e2) else (t3, e3)
  {
    var a := PhaseCalls(AppendPhase, cacheDir, files);
    var s := PhaseCalls(SetPhase, cacheDir, files);
    var d := PhaseCalls(AddPhase, cacheDir, files);
    RunCallsAppend(eo, t, a + s, d);
    RunCallsAppend(eo, t, a, s);
    var (t1, e1) := RunCalls(eo, t, a);
    if e1.None? {
      RunCallsAppend(eo, t1, s, d);
    }
  }

  method SetupEnv(env: Env, host: Host, cacheDir: string) returns (err: Option<Error>)
    modifies env, host
    ensures (World(host.log, env.trace), err)
            == SetupEnvSpec(host.oracle, env.oracle, old(World(host.log, env.trace)), cacheDir)
  {
    ghost var t0 := env.trace;
    var cacheFiles := host.ReadDir(cacheDir);
    if cacheFiles.Err? {
      return Some(cacheFiles.error);
    }
    var files := cacheFiles.value;
    ThreePassesAsOne(env.oracle, t0, cacheDir, files);
    err := EachDir(env, files, AppendPhase, cacheDir);
    if err.Some? {
      return err;
    }
    err := EachDir(env, files, SetPhase, cacheDir);
    if err.Some? {
      return err;
    }
    err := EachDir(env, files, AddPhase, cacheDir);
  }

  /** The order `setupEnv` promises: for `n` directory layers `L_0 .. L_n-1`,
      first `AppendDirs(cacheDir/L_k)` for every k, then `SetEnvDir(cacheDir/L_k/env/set)`
      for every k, then `AddEnvDir(cacheDir/L_k/env/add)` for every k, each pass in
      listing order. */
  lemma SetupCallsOrder(cacheDir: string, files: seq<FileInfo>)
    ensures var cs := SetupCalls(cacheDir, files);
            var ls := Dirs(files);
            var n := |ls|;
            && |cs| == 3 * n
            && (forall k :: 0 <= k < n ==> cs[k] == Call.AppendDirs(Join([cacheDir, ls[k]])))
            && (forall k :: 0 <= k < n ==> cs[n + k] == Call.SetEnvDir(Join([cacheDir, ls[k], "env", "set"])))
            && (forall k :: 0 <= k < n ==> cs[2 * n + k] == Call.AddEnvDir(Join([cacheDir, ls[k], "env", "add"])))
  {
    PhaseCallsPerDir(AppendPhase, cacheDir, files);
    PhaseCallsPerDir(SetPhase, cacheDir, files);
    PhaseCallsPerDir(AddPhase, cacheDir, files);
    Thirds(PhaseCalls(AppendPhase, cacheDir, files), PhaseCalls(SetPhase, cacheDir, files),
           PhaseCalls(AddPhase, cacheDir, files));
  }

  /** Indexing into three runs of equal length laid end to end. */
  lemma Thirds(a: seq<Call>, s: seq<Call>, d: seq<Call>)
    requires |a| == |s| == |d|
    ensures forall k :: 0 <= k < |a| ==>
              (a + s + d)[k] == a[k] && (a + s + d)[|a| + k] == s[k] && (a + s + d)[2 * |a| + k] == d[k]
  {
  }

  /** No call of `SetupCalls` comes after one of a later kind. */
  lemma SetupCallsRanked(cacheDir: string, files: seq<FileInfo>)
    ensures var cs := SetupCalls(cacheDir, files);
            forall i, j :: 0 <= i < j < |cs| ==> Rank(cs[i]) <= Rank(cs[j])
  {
    var a := PhaseCalls(AppendPhase, cacheDir, files);
    var s := PhaseCalls(SetPhase, cacheDir, files);
    var d := PhaseCalls(AddPhase, cacheDir, files);
    PhaseCallsPerDir(AppendPhase, cacheDir, files);
    PhaseCallsPerDir(SetPhase, cacheDir, files);
    PhaseCallsPerDir(AddPhase, cacheDir, files);
    RanksOfPhases(a, s, d);
  }

  /** Calls of rank 0, then rank 1, then rank 2 make a sequence whose ranks never decrease. */
  lemma RanksOfPhases(a: seq<Call>, s: seq<Call>, d: seq<Call>)
    requires forall i :: 0 <= i < |a| ==> Rank(a[i]) == 0
    requires forall i :: 0 <= i < |s| ==> Rank(s[i]) == 1
    requires forall i :: 0 <= i < |d| ==> Rank(d[i]) == 2
    ensures forall i, j :: 0 <= i < j < |a + s + d| ==> Rank((a + s + d)[i]) <= Rank((a + s + d)[j])
  {
    var cs := a + s + d;
    forall i | 0 <= i < |cs|
      ensures Rank(cs[i]) == if i < |a| then 0 else if i < |a| + |s| then 1 else 2
    {
      if i < |a| {
        assert cs[i] == a[i];
      } else if i < |a| + |s| {
        assert cs[i] == s[i - |a|];
      } else {
        assert cs[i] == d[i - |a| - |s|];
      }
    }
  }

  /** What `setupEnv` does to the store. The directory read is always logged. If
      it fails, its error is returned and no store call is made. Otherwise the run
      stops at its first error over `SetupCalls` (see `StopsAtFirstError`): the
      calls made are a prefix of them, each but the last succeeding, and there is
      no error exactly when all were made and the last succeeded. The calls made
      never go back to an earlier kind, so a failure leaves every later call unmade. */
  lemma SetupEnvCallOrder(ho: HostOracle, eo: EnvOracle, w: World, cacheDir: string)
    ensures var (w', err) := SetupEnvSpec(ho, eo, w, cacheDir);
            var listing := ho.readDir(w.log, cacheDir);
            && w'.log == w.log + [ReadDir(cacheDir)]
            && (listing.Err? ==> w'.trace == w.trace && err == Some(listing.error))
            && (listing.Ok? ==>
                  && StopsAtFirstError(eo, w.trace, SetupCalls(cacheDir, listing.value), w'.trace, err)
                  && forall i, j :: |w.trace| <= i < j < |w'.trace| ==> Rank(w'.trace[i]) <= Rank(w'.trace[j]))
  {
    var listing := ho.readDir(w.log, cacheDir);
    if listing.Ok? {
      var (w', err) := SetupEnvSpec(ho, eo, w, cacheDir);
      var cs := SetupCalls(cacheDir, listing.value);
      RunCallsStopsAtFirstError(eo, w.trace, cs);
      SetupCallsRanked(cacheDir, listing.value);
      RankedPrefix(eo, w.trace, cs, w'.trace, err);
    }
  }

  /** A run that stops at its first error over calls whose ranks never decrease
      makes calls whose ranks never decrease either. */
  lemma RankedPrefix(eo: EnvOracle, t: seq<Call>, cs: seq<Call>, t': seq<Call>, err: Option<Error>)
    requires StopsAtFirstError(eo, t, cs, t', err)
    requires forall i, j :: 0 <= i < j < |cs| ==> Rank(cs[i]) <= Rank(cs[j])
    ensures forall i, j :: |t| <= i < j < |t'| ==> Rank(t'[i]) <= Rank(t'[j])
  {
    forall i | |t| <= i < |t'|
      ensures t'[i] == cs[i - |t|]
    {
    }
  }
}
