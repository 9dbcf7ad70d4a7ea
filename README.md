# Build-phase orchestrator of the buildpack lifecycle, in Dafny

This project models the core of the lifecycle's build phase (`builder.go`).
For each buildpack of an ordered group, `Builder.Build` and `Builder.Develop`:

1. create the buildpack's directories;
2. run its `bin/build` or `bin/develop` executable as a child process, whose
   `cmd.Env` is set to the shared environment store's current `List()`;
3. compose the environment from the layer directories the buildpack left in its
   cache directory (`setupEnv`, which takes three `eachDir` passes);
4. decode the buildpack's `launch.toml` or `develop.toml`;
5. add the declared processes to a registry keyed by process type
   (`processMap`).

The first error from any step of any buildpack ends the run, and no metadata is
returned. On success the result is the registry, listed in ascending order of
type.

Each buildpack's `setupEnv` runs before its TOML file is decoded (builder.go:61
vs 65, 99 vs 103); `Lifecycle.StepFollowsScript` states this order. A failing
buildpack ends the run: no step of a later buildpack is taken
(`Lifecycle.StepsStopAtFailure`). So the executables of all N buildpacks run
only when none before the last fails (`Lifecycle.StepsInGroupOrder`).

The model keeps the code's imperative form:

- **`Processes.ProcessMap`** is the registry. It is a class whose `Add` and
  `List` methods are loops over a `map` field. It is specified by the value-level
  function `Merge` and the predicate `IsListingOf`.
- **`Environment.Env`** is the environment store. It records the trace of
  `AppendDirs`, `SetEnvDir` and `AddEnvDir` calls made on it. An `EnvOracle`
  decides, as a function of that trace, whether each call fails and what
  `List()` yields.
- **`Host.Host`** stands for the operating-system services the core calls:
  `os.MkdirAll`, `filepath.Abs`, running the child, `ioutil.ReadDir` and the TOML
  decoder. It logs every call, and a `HostOracle` gives each call's result as a
  function of the history of calls.
- **`Layers.EachDir`, `Lifecycle.Build` and `Lifecycle.Develop`** are methods
  with loops, and **`Layers.SetupEnv`** is a method that reads the cache
  directory and makes three `EachDir` calls. Each is proved against a function
  of the collaborators' old state: `RunCalls`, `SetupEnvSpec` and `Steps`.
  `Steps` is the run of a group, one step per buildpack, each from the state the
  previous one left, none after the first failure. The lemmas then prove what
  the code promises about those functions.

`filepath.Join` is modelled as joining with `/` (`Paths.Join`).

## Model

| member | source | states |
|---|---|---|
| Processes.ProcessMap.Add | builder.go:147-151 | the registry afterwards is `Merge(old registry, l)`: each declaration of `l`, in order, stored under its type; every entry stays keyed by its own type |
| Processes.ProcessMap.CollectKeys | builder.go:154-157 | every key of the registry is collected exactly once, and nothing else is |
| Processes.ProcessMap.List | builder.go:153-164 | the result lists the registry: each element is the entry stored under its type, every key occurs, and the types strictly ascend, so none occurs twice |
| Processes.MergeLastWins | builder.go:147-151 | after `add(l)`, a type declared in `l` maps to the last declaration of that type in `l` |
| Processes.MergeUntouched | builder.go:147-151 | a type not declared in `l` keeps its entry, or stays absent |
| Processes.MergeKeys | builder.go:147-151 | the keys after `add(l)` are the old keys plus the types declared in `l`; no entry is ever removed |
| Processes.MergeKeyedByType | builder.go:149 | adding keeps every entry stored under its own type |
| Processes.MergeConcat | builder.go:68 | adding `a` and then `b` gives the same registry as adding `a + b` |
| Processes.SortStrings | builder.go:158 | the sorted keys ascend in Go's string order and are a permutation of the keys |
| Processes.SortedKeys | builder.go:154-158 | the keys of the map, collected once each and sorted, strictly ascend and are exactly the map's keys |
| Processes.ListingUnique | builder.go:153-164 | a registry has exactly one listing, so `list()` is deterministic whatever the map's iteration order |
| Processes.LessTotal | builder.go:158 | any two distinct strings are ordered one way or the other |
| Processes.LessTransitive | builder.go:158 | the string order is transitive |
| Processes.OverrideExample | builder.go:68 | `[web:a]` added and then `[web:b, worker:c]` added list as `[web:b, worker:c]` |
| Paths.Join | builder.go:41-42 | the path built from no elements is empty, and any other path begins with its first element (the directory every buildpack path is built under) |
| Paths.JoinExtends | builder.go:124 | joining `[cacheDir, L, "env", "set"]` is the layer path `cacheDir/L` followed by `/env/set` (and likewise for any split) |
| Layers.DirsAppend | builder.go:134-137 | the directory filter keeps the listing's order: the directories of `a + b` are those of `a` and then those of `b` |
| Layers.DirsMembers | builder.go:135-137 | a name is visited exactly when some directory entry carries it; plain files never are |
| Layers.PhaseCallsPerDir | builder.go:133-143 | one pass makes one call per directory entry, and its k-th call is for the k-th directory of the listing |
| Layers.VisitLayer | builder.go:118-129 | the callback for one layer directory makes exactly one store call, the one its pass calls for: `AppendDirs(cacheDir/L)`, `SetEnvDir(cacheDir/L/env/set)` or `AddEnvDir(cacheDir/L/env/add)`; its error is the store's answer to that call |
| Layers.EachDir | builder.go:133-143 | the store's new trace and the result are `RunCalls` over the pass's calls: the callback runs for each directory in order, and the first error ends the walk |
| Environment.Env.AppendDirs | builder.go:21 | the call is appended to the store's history, failed or not, and its error is the store's answer to it after the earlier calls |
| Environment.Env.AddEnvDir | builder.go:22 | the call is appended to the store's history, failed or not, and its error is the store's answer to it after the earlier calls |
| Environment.Env.SetEnvDir | builder.go:23 | the call is appended to the store's history, failed or not, and its error is the store's answer to it after the earlier calls |
| Environment.Env.List | builder.go:24 | the listed environment is the store's listing for the calls made on it so far: it depends on nothing but that history |
| Environment.RunCallsStopsAtFirstError | builder.go:138-140 | the calls made are a prefix of those intended, and each call but the last succeeded; there is no error exactly when all were made and the last succeeded, and otherwise the error is that of the last call made |
| Environment.RunCallsAppend | builder.go:118-130 | running `a + b` is running `a` and then, unless it failed, running `b` |
| Layers.ThreePassesAsOne | builder.go:118-130 | the three `eachDir` passes, each run only if the one before it succeeded, make the same calls with the same result as one pass over all `AppendDirs`, then all `SetEnvDir`, then all `AddEnvDir` calls |
| Layers.SetupEnv | builder.go:113-131 | the collaborators' new state and the result are `SetupEnvSpec`: the directory read is logged; a failed read returns its error; otherwise the store calls of all three passes are made in order up to the first failure |
| Layers.SetupCallsOrder | builder.go:118-130 | for `n` layers there are `3n` calls: `AppendDirs(cacheDir/L_k)` for every k, then `SetEnvDir(cacheDir/L_k/env/set)` for every k, then `AddEnvDir(cacheDir/L_k/env/add)` for every k |
| Layers.SetupCallsRanked | builder.go:118-130 | no call of the composition order comes after a call of a later kind |
| Layers.SetupEnvCallOrder | builder.go:113-131 | the directory read is always logged. If it fails, its error is returned and no store call is made. Otherwise the store calls made are a prefix of the composition order and each call but the last succeeded. There is no error exactly when every call was made and the last succeeded, and otherwise the error is that of the last call made. The calls made never go back to an earlier kind |
| Lifecycle.StepFollowsScript | builder.go:40-68 | one buildpack's iteration, in both modes: the host calls follow its script up to the first failure, and each call before the last succeeded. For `Build` the script is mkdir `launchDir/ID`, mkdir `cacheDir/ID`, `Abs(Dir/bin/build)`, run with arguments `(launchDir/ID, cacheDir/ID, platformDir)`, then ReadDir, then decode `launchDir/ID/launch.toml`. The child runs in `appDir`, and its `cmd.Env` is `List()` as it stood when the buildpack began. Store calls happen only inside `setupEnv`, which runs before the decode. The step's error is that of the failing call, or otherwise the result is the decoder's |
| Lifecycle.StepExtends | builder.go:40-68 | a buildpack's iteration only appends to the host log and the store trace |
| Lifecycle.StepsInGroupOrder | builder.go:40 | buildpack j is the j-th step, started from the state step j-1 left. Every step but the last succeeded. The run stops early only at a failure; a non-empty group starts its first buildpack |
| Lifecycle.StepsStopAtFailure | builder.go:43-67 | once buildpack i has failed, no step of any later buildpack is taken |
| Lifecycle.IterationAppends | builder.go:40-68 | every iteration, in both modes, starts from the state it is given and only appends to the store's history |
| Lifecycle.StepsLinked | builder.go:40-68 | in a group run by such an iteration, each step starts where the previous one ended and only appends to the store's history |
| Lifecycle.LinkedHistory | builder.go:54 | when each step starts where the previous one ended, step j's store history is the initial one followed by the store calls of steps 0 .. j-1 |
| Lifecycle.EnvComposedByEarlierBuildpacks | builder.go:54 | the environment handed to buildpack j's child is `List()` over the initial store history followed by every store call made by buildpacks 0 .. j-1 |
| Lifecycle.MergeOutcomesFlat | builder.go:68 | the registry a run builds is the one obtained by adding every declared process, buildpack after buildpack, to an empty map |
| Lifecycle.LaterBuildpackOverrides | builder.go:68 | in a successful run every buildpack was handled, and a type maps to the latest declaration of it by the latest buildpack declaring it |
| Lifecycle.MergeOutcomesKeyed | builder.go:39-68 | the run's registry keeps every entry under its own type |
| Lifecycle.NextStep | builder.go:40-68 | buildpack i's step extends the run of the buildpacks before it: on success the run goes on from its state with its processes added to the registry; on failure the run ends there |
| Lifecycle.BuildBuildpack | builder.go:41-68 | one iteration of `Build`'s loop: the collaborators end in the state the buildpack's step gives, and the result is its outcome |
| Lifecycle.DevelopBuildpack | builder.go:84-106 | one iteration of `Develop`'s loop, with one directory `cacheDir/ID`, the non-absolute `Dir/bin/develop`, arguments `(cacheDir/ID, platformDir)` and `cacheDir/ID/develop.toml` |
| Lifecycle.Build | builder.go:38-73 | the collaborators end in the state the group's run (`Steps`) leaves them. The result is an error exactly when the run's last buildpack failed, and it is that buildpack's error, with no metadata. Otherwise it is the registry of every declared process, listed by type |
| Lifecycle.Develop | builder.go:81-111 | the same as `Build`, for the develop iteration |

## Left out

- The output streams `Out` and `Err` given to the child are not modelled. They carry no logic here.
- cmd/command.go is not part of this model. It holds the command-line shell: flags, colour and log-level setup, and exit codes.
- Process spawning, `os.MkdirAll`, `filepath.Abs`, `ioutil.ReadDir` and `toml.DecodeFile` are oracles. Each gives a possibly failing result as a function of the history of host calls, because their behaviour lies in the standard library or in the TOML package.
- The `0777` permission bits are kept as a logged argument (`Host.Perm`), not as file-system behaviour.
- Whether the child's executable is found is left to the run oracle. Both paths contain a `/`, so `exec.Command` does no `PATH` lookup. `Build` makes its path absolute with `filepath.Abs`, against the lifecycle's own working directory (builder.go:49). `Develop` passes `Dir/bin/develop` as it is (builder.go:89), so a relative `Dir` is resolved against the child's working directory `appDir` (builder.go:93). The model keeps both paths as they are given and does not resolve either against a directory.
- The concrete environment store is not part of this model. How `AppendDirs`, `SetEnvDir` and `AddEnvDir` change variables is hidden behind the `EnvOracle`, which sees only the store's own trace. What a variable ends up as, when one layer sets it and a later pass adds to it, is not modelled; only the call order is (`Layers.SetupCallsOrder`).
- `ioutil.ReadDir` sorts entries by name, but the model does not rely on that. Every property holds for any listing order the oracle gives. In particular the composition order for layers is the listing order, as in the code; it imposes no ordering of its own.
- `Paths.Join` does not clean paths the way `filepath.Join` does. It does not drop empty elements, collapse `..` or collapse repeated separators. So `Paths.Join(["/launch/", "bp"])` is `"/launch//bp"` where `filepath.Join` gives `"/launch/bp"`, and `Paths.Join(["", "bin", "build"])` is `"/bin/build"` where `filepath.Join` gives `"bin/build"`.
- `Processes.Less`: process types are taken as strings of Unicode characters and compared character by character, while Go compares them byte by byte. The two orders agree on valid UTF-8, and a TOML document must be valid UTF-8.
- `Processes.ProcessMap.List`: runs `sort.Strings` on a `seq` (`SortStrings`, an insertion sort), not in place inside a Go slice. It also returns `[]` where Go returns a nil slice for an empty registry.
- `Layers.EachDir`: takes which of `setupEnv`'s three callbacks to run (`Phase`), not an arbitrary closure.
- `LaunchTOML`, `DevelopTOML`, `BuildMetadata` and `DevelopMetadata` become one decoded shape (`Host.ProcessesToml`) and two result records. The TOML field tags are not modelled.
- A `List()` that returns nil makes `exec.Cmd` give the child the lifecycle's own environment (builder.go:54, 92). `Host.Cmd`'s `env` field, a `seq<string>`, does not tell nil from an empty list, so the model records the same value in both cases.
