/** The operating-system services builder.go calls: `os.MkdirAll`,
    `filepath.Abs`, `exec.Cmd.Run`, `ioutil.ReadDir` and `toml.DecodeFile`. Each
    is an oracle: its result is a function of the services' history and its
    argument, and every call is recorded in the host's log, in order. */
module Host {
  import opened Errors
  import opened Processes

  /** An entry of a directory listing, as far as builder.go looks at it. */
  datatype FileInfo = FileInfo(name: string, isDir: bool)

  /** A child process as `exec.Command` configures it: the executable, its
      arguments (after `argv[0]`), working directory and environment. */
  datatype Cmd = Cmd(path: string, args: seq<string>, dir: string, env: seq<string>)

  /** The shape of both `launch.toml` and `develop.toml` (`LaunchTOML`,
      `DevelopTOML`): a list of process declarations. */
  datatype ProcessesToml = ProcessesToml(processes: seq<Process>)

  /** The permission bits builder.go passes to `os.MkdirAll`: octal 0777. */
  const Perm: int := 511

  /** One call on the host services. */
  datatype Event =
    | MkdirAll(path: string, perm: int)
    | Abs(path: string)
    | Run(cmd: Cmd)
    | ReadDir(dirname: string)
    | DecodeFile(path: string)

  /** The outcome of each service, given the calls made before it. */
  datatype HostOracle = HostOracle(
    mkdirAll: (seq<Event>, string, int) -> Option<Error>,
    abs: (seq<Event>, string) -> Result<string>,
    run: (seq<Event>, Cmd) -> Option<Error>,
    readDir: (seq<Event>, string) -> Result<seq<FileInfo>>,
    decodeFile: (seq<Event>, string) -> Result<ProcessesToml>)

  class Host {
    var log: seq<Event>
    const oracle: HostOracle

    constructor (oracle: HostOracle)
      ensures log == [] && this.oracle == oracle
    {
      this.oracle := oracle;
      log := [];
    }

    method MkdirAll(path: string, perm: int) returns (err: Option<Error>)
      modifies this
      ensures log == old(log) + [Event.MkdirAll(path, perm)]
      ensures err == oracle.mkdirAll(old(log), path, perm)
    {
      err := oracle.mkdirAll(log, path, perm);
      log := log + [Event.MkdirAll(path, perm)];
    }

    method Abs(path: string) returns (r: Result<string>)
      modifies this
      ensures log == old(log) + [Event.Abs(path)]
      ensures r == oracle.abs(old(log), path)
    {
      r := oracle.abs(log, path);
      log := log + [Event.Abs(path)];
    }

    /** Starts the child and waits for it: an error if it fails to start or
        exits with a non-zero status. */
    method Run(cmd: Cmd) returns (err: Option<Error>)
      modifies this
      ensures log == old(log) + [Event.Run(cmd)]
      ensures err == oracle.run(old(log), cmd)
    {
      err := oracle.run(log, cmd);
      log := log + [Event.Run(cmd)];
    }

    method ReadDir(dirname: string) returns (r: Result<seq<FileInfo>>)
      modifies this
      ensures log == old(log) + [Event.ReadDir(dirname)]
      ensures r == oracle.readDir(old(log), dirname)
    {
      r := oracle.readDir(log, dirname);
      log := log + [Event.ReadDir(dirname)];
    }

    method DecodeFile(path: string) returns (r: Result<ProcessesToml>)
      modifies this
      ensures log == old(log) + [Event.DecodeFile(path)]
      ensures r == oracle.decodeFile(old(log), path)
    {
      r := oracle.decodeFile(log, path);
      log := log + [Event.DecodeFile(path)];
    }
  }
}
