/** `BuildServerAdapter.getBuildServer`: the lazily created, cached connection to
    the out-of-process build server. */
module Adapter {
  import opened Options
  import opened Strings
  import opened Platform
  import opened Classpath
  import opened Launch

  /** What the host reports during one call: the current process's command
      (`ProcessHandle.current().info().command()`), the absolute path of the
      resolved `/bsp` resource (`None` when resolving it throws), the `os.name`
      property, the default file system's separator, and the workspace root
      location as a device prefix and its segments. */
  datatype Host = Host(
    command: Option<string>,
    bundleDir: Option<string>,
    osName: string,
    fileSeparator: char,
    device: string,
    workspaceRoot: seq<string>)

  /** The remote `BuildServer` proxy returned by the JSON-RPC launcher, as an opaque token. */
  datatype Proxy = Proxy(id: nat)

  /** What starting the process and binding the launcher to its streams yields:
      the remote proxy, or the `IOException` thrown by `ProcessBuilder.start`. */
  datatype StartOutcome = Started(proxy: Proxy) | StartFailed

  /** The `BspClient` created for a connection, recorded by the proxy that
      `onConnectWithServer` handed it. */
  datatype ClientRecord = Connected(server: Proxy)

  /** One call of `ProcessBuilder.start`: the command line and whether it started. */
  datatype Attempt = Attempt(command: seq<string>, started: bool)

  /** Why a call gives up before starting anything. */
  datatype Failure = MissingExecutable | MissingClasspath

  /** The adapter's fields, plus the history of process starts it has made. */
  datatype AdapterState = AdapterState(
    buildServer: Option<Proxy>,
    buildClient: Option<ClientRecord>,
    attempts: seq<Attempt>)

  const Initial := AdapterState(None, None, [])

  /** The storage directory passed in `-DbuildServerStorage`. */
  function StoragePath(host: Host): (path: string)
    ensures path == host.device
                    + JoinSegments(RemoveLastSegments(host.workspaceRoot, 2), host.fileSeparator)
                    + [host.fileSeparator] + BuildServerDir
    ensures host.device + JoinSegments(RemoveLastSegments(host.workspaceRoot, 2), host.fileSeparator)
            <= OsPath(host.device, host.workspaceRoot, host.fileSeparator)
  {
    StoragePathLayout(host.device, host.workspaceRoot, host.fileSeparator);
    OsPath(host.device, StorageLocation(host.workspaceRoot), host.fileSeparator)
  }

  /** The command line a call would start, or the reason it gives up first:
      an empty executable path, then an empty classpath. The command line is the
      one `LaunchCommand` builds, so it also reads back with `ParseLaunch`. */
  function LaunchPlan(host: Host): (r: Result<seq<string>, Failure>)
    ensures r == Err(MissingExecutable) <==> JavaExecutablePath(host.command) == ""
    ensures r == Err(MissingClasspath) <==>
              JavaExecutablePath(host.command) != "" && host.bundleDir.None?
    ensures r.Ok? ==>
              r.value == LaunchCommand(LaunchSpec(
                host.command.value,
                StoragePath(host),
                Join(ClasspathSeparator(host.osName),
                     RuntimeClasspath(host.bundleDir, host.fileSeparator))))
    ensures r.Ok? ==>
              ParseLaunch(r.value) == Some(LaunchSpec(
                host.command.value,
                StoragePath(host),
                Join(ClasspathSeparator(host.osName),
                     RuntimeClasspath(host.bundleDir, host.fileSeparator))))
  {
    var exec := JavaExecutablePath(host.command);
    if exec == "" then Err(MissingExecutable)
    else
      var classpath := RuntimeClasspath(host.bundleDir, host.fileSeparator);
      if |classpath| == 0 then Err(MissingClasspath)
      else
        var spec := LaunchSpec(exec, StoragePath(host), Join(ClasspathSeparator(host.osName), classpath));
        ParseLaunchCommand(spec);
        Ok(LaunchCommand(spec))
  }

  /** One call of `getBuildServer` from state `s`: the new state and the result
      (`None` standing for `null`). */
  function Step(s: AdapterState, host: Host, start: StartOutcome): (r: (AdapterState, Option<Proxy>))
    // a cached server is returned as it is, and nothing is started
    ensures s.buildServer.Some? ==> r == (s, s.buildServer)
    // the result is always what the cache holds afterwards
    ensures r.1 == r.0.buildServer
    // giving up early changes nothing
    ensures LaunchPlan(host).Err? ==> r == (s, s.buildServer)
    // at most one process start per call, and only from an empty cache with a complete plan
    ensures r.0.attempts ==
              if s.buildServer.None? && LaunchPlan(host).Ok?
              then s.attempts + [Attempt(LaunchPlan(host).value, start.Started?)]
              else s.attempts
    // a failed start leaves the cache and the client as they were
    ensures start.StartFailed? ==> r.0.buildServer == s.buildServer && r.0.buildClient == s.buildClient
    // a successful start from an empty cache with a complete plan caches its proxy
    ensures s.buildServer.None? && LaunchPlan(host).Ok? && start.Started? ==>
              r.1 == Some(start.proxy) && r.0.buildClient == Some(Connected(start.proxy))
  {
    if s.buildServer.Some? then (s, s.buildServer)
    else
      match LaunchPlan(host)
      case Err(_) => (s, None)
      case Ok(command) =>
        match start
        case StartFailed =>
          (s.(attempts := s.attempts + [Attempt(command, false)]), None)
        case Started(p) =>
          (AdapterState(Some(p), Some(Connected(p)), s.attempts + [Attempt(command, true)]), Some(p))
  }

  /** One request to `getBuildServer`: what the host reports and how the start goes. */
  datatype Call = Call(host: Host, start: StartOutcome)

  /** A sequence of calls from state `s`: the final state and each call's result. */
  function Run(s: AdapterState, calls: seq<Call>): (r: (AdapterState, seq<Option<Proxy>>))
    ensures |r.1| == |calls|
    // the start history only grows, by at most one attempt per call
    ensures s.attempts <= r.0.attempts
    ensures |r.0.attempts| <= |s.attempts| + |calls|
    decreases |calls|
  {
    if calls == [] then (s, [])
    else
      var (s1, out) := Step(s, calls[0].host, calls[0].start);
      var (s2, outs) := Run(s1, calls[1..]);
      (s2, [out] + outs)
  }

  /** The number of process starts that succeeded. */
  function Successes(attempts: seq<Attempt>): nat
  {
    if attempts == [] then 0
    else Successes(attempts[..|attempts| - 1]) + (if attempts[|attempts| - 1].started then 1 else 0)
  }

  /** The adapter owns at most one build-server process: the cache is filled exactly
      when one start has succeeded, and the client was told about the cached proxy. */
  predicate Consistent(s: AdapterState)
  {
    && Successes(s.attempts) <= 1
    && (s.buildServer.Some? <==> Successes(s.attempts) == 1)
    && s.buildClient == (if s.buildServer.Some? then Some(Connected(s.buildServer.value)) else None)
  }

  /** One call keeps the adapter consistent. */
  lemma StepPreservesConsistent(s: AdapterState, host: Host, start: StartOutcome)
    requires Consistent(s)
    ensures Consistent(Step(s, host, start).0)
  {
  }

  /** Any sequence of calls keeps the adapter consistent. */
  lemma {:induction false} RunPreservesConsistent(s: AdapterState, calls: seq<Call>)
    requires Consistent(s)
    ensures Consistent(Run(s, calls).0)
    decreases |calls|
  {
    if calls != [] {
      StepPreservesConsistent(s, calls[0].host, calls[0].start);
      RunPreservesConsistent(Step(s, calls[0].host, calls[0].start).0, calls[1..]);
    }
  }

  /** However many times `getBuildServer` is called, at most one build-server
      process is ever started successfully. */
  lemma AtMostOneProcess(calls: seq<Call>)
    ensures Successes(Run(Initial, calls).0.attempts) <= 1
  {
    RunPreservesConsistent(Initial, calls);
  }

  /** Once a server is cached, every later call returns that same proxy and
      starts nothing. */
  lemma {:induction false} CachedServerIsStable(s: AdapterState, p: Proxy, calls: seq<Call>)
    requires s.buildServer == Some(p)
    ensures Run(s, calls).0 == s
    ensures forall i :: 0 <= i < |calls| ==> Run(s, calls).1[i] == Some(p)
    decreases |calls|
  {
    if calls != [] {
      CachedServerIsStable(s, p, calls[1..]);
    }
  }

  /** A failed start does not poison the cache: the next call with the same host
      tries again, and a successful start then connects. */
  lemma FailedStartIsRetried(s: AdapterState, host: Host, p: Proxy)
    requires s.buildServer.None? && LaunchPlan(host).Ok?
    ensures var (s1, out1) := Step(s, host, StartFailed);
            var (s2, out2) := Step(s1, host, Started(p));
            && out1 == None && s1.buildServer == None
            && out2 == Some(p)
            && s2.attempts == s.attempts + [Attempt(LaunchPlan(host).value, false),
                                            Attempt(LaunchPlan(host).value, true)]
  {
    var plan := LaunchPlan(host).value;
    var (s1, out1) := Step(s, host, StartFailed);
    assert s1 == s.(attempts := s.attempts + [Attempt(plan, false)]) && out1 == None;
    var (s2, out2) := Step(s1, host, Started(p));
    assert s2 == AdapterState(Some(p), Some(Connected(p)), s1.attempts + [Attempt(plan, true)]);
    assert s1.attempts + [Attempt(plan, true)] == s.attempts + [Attempt(plan, false), Attempt(plan, true)];
  }

  /** The `-cp` argument splits back into the classpath entries at the separator,
      provided no entry contains the separator itself. */
  lemma ClasspathArgumentSplits(host: Host)
    requires host.bundleDir.Some?
    requires var cp := RuntimeClasspath(host.bundleDir, host.fileSeparator);
             var sep := ClasspathSeparator(host.osName);
             sep[0] !in cp[0] && sep[0] !in cp[1]
    ensures var cp := RuntimeClasspath(host.bundleDir, host.fileSeparator);
            var sep := ClasspathSeparator(host.osName);
            Split(Join(sep, cp), sep[0]) == cp
  {
    var cp := RuntimeClasspath(host.bundleDir, host.fileSeparator);
    var sep := ClasspathSeparator(host.osName);
    SeparatorIsOneCharacter(host.osName);
    assert sep == [sep[0]];
    SplitJoin(cp, sep[0]);
  }

  /** On Windows the entries are joined with `;`, and the wildcard follows the
      Eclipse separator `/`, not the host's backslash. */
  lemma WindowsClasspathArgument(dir: string)
    requires dir != "" && dir[|dir| - 1] != '\\'
    ensures Join(ClasspathSeparator("Windows 10"), RuntimeClasspath(Some(dir), '\\'))
            == dir + "\\server.jar;" + dir + "\\libs/*"
  {
    WindowsHostUsesSemicolon();
    EntriesSpelledOut(dir, '\\');
    var cp := RuntimeClasspath(Some(dir), '\\');
    JoinTwo(";", cp[0], cp[1]);
  }

  /** On Linux the entries are joined with `:`. */
  lemma LinuxClasspathArgument(dir: string)
    requires dir != "" && dir[|dir| - 1] != '/'
    ensures Join(ClasspathSeparator("Linux"), RuntimeClasspath(Some(dir), '/'))
            == dir + "/server.jar:" + dir + "/libs/*"
  {
    LinuxHostUsesColon();
    EntriesSpelledOut(dir, '/');
    var cp := RuntimeClasspath(Some(dir), '/');
    JoinTwo(":", cp[0], cp[1]);
  }

  /** The adapter object; `adapterInstance` in the source. */
  class BuildServerAdapter {
    var buildServer: Option<Proxy>
    var buildClient: Option<ClientRecord>
    /** Every command line handed to `ProcessBuilder.start`, with its outcome. */
    ghost var attempts: seq<Attempt>

    ghost function State(): AdapterState
      reads this
    {
      AdapterState(buildServer, buildClient, attempts)
    }

    constructor ()
      ensures State() == Initial
    {
      buildServer := None;
      buildClient := None;
      attempts := [];
    }

    /** `getBuildServer`: the cached proxy, or a fresh connection, or `None` when
        the executable, the classpath or the process start is missing. */
    method GetBuildServer(host: Host, start: StartOutcome) returns (server: Option<Proxy>)
      modifies this
      ensures (State(), server) == Step(old(State()), host, start)
    {
      if buildServer.None? {
        var exec := JavaExecutablePath(host.command);
        if exec == "" {
          return None;
        }
        var classpath := RuntimeClasspath(host.bundleDir, host.fileSeparator);
        if |classpath| == 0 {
          return None;
        }
        var storage := OsPath(host.device, StorageLocation(host.workspaceRoot), host.fileSeparator);
        var command := LaunchCommand(LaunchSpec(exec, storage, Join(ClasspathSeparator(host.osName), classpath)));
        match start
        case StartFailed =>
          attempts := attempts + [Attempt(command, false)];
          return None;
        case Started(p) =>
          attempts := attempts + [Attempt(command, true)];
          buildClient := Some(Connected(p));
          buildServer := Some(p);
      }
      server := buildServer;
    }
  }
}
