# Build-server adapter: a Dafny model

This project models the connection manager of the `com.microsoft.buildserver.adapter`
plug-in. The plug-in launches the bundled Java build server as a separate process the first
time someone asks for it. It wires a JSON-RPC launcher over the process's standard streams
and keeps the resulting remote `BuildServer` proxy in a field. Later requests get that proxy
back. The modelled code is `BuildServerAdapter.getBuildServer` and its helpers:

- `options.dfy`, module `Options`: `Option` (a Java reference that may be null) and `Result`.
- `strings.dfy`, module `Strings`: the `java.lang.String` operations the adapter uses.
  These are `toLowerCase`, `contains` and `String.join`. `Split` is added as the inverse of
  `join`.
- `platform.dfy`, module `Platform`: `getJavaExecutablePath` and `getClasspathSplitor`.
- `classpath.dfy`, module `Classpath`: `getBuildServerRuntimeClasspath`. It gives two entries
  under the resolved `bsp` directory: the server jar, then `libs` followed by `/*`.
- `launch.dfy`, module `Launch`: the storage directory. This is the workspace root with its
  last two segments removed and `build-server` appended. The module also builds the 8-argument
  command line, and `ParseLaunch` reads it back as its partner.
- `adapter.dfy`, module `Adapter`: the lazy-initialisation state machine.
  - `Step` is a pure function giving one call's new state and result. `Run` applies a
    sequence of calls.
  - The class `BuildServerAdapter` holds the fields `buildServer` and `buildClient`, plus a
    ghost history of process starts. Its method `GetBuildServer` updates those fields in place
    and is proved equal to `Step`.

The outside world is passed in. A `Host` value holds the process command, the resolved bundle
directory (`None` when resolution throws), `os.name`, the file separator and the workspace
root location. A `StartOutcome` value says whether `ProcessBuilder.start` succeeded; on
success it carries the proxy the launcher gave back. The proxy is an opaque token.

The wildcard entry uses Eclipse's `Path.SEPARATOR` (`/`) on every host. So on Windows the
`-cp` value is `<dir>\server.jar;<dir>\libs/*` (`Adapter.WindowsClasspathArgument`). The
code has no shutdown operation and no lock around the launch. `getBuildServer` catches only
the `IOException` from `ProcessBuilder.start`.

## Model

| member | source | states |
|---|---|---|
| `Strings.LowerChar` | jdtls.ext/com.microsoft.buildserver.adapter/src/com/microsoft/buildserver/adapter/BuildServerAdapter.java:127 | an upper-case ASCII letter moves 32 code points up to its lower-case form; every other character is kept; the result is never an upper-case ASCII letter |
| `Strings.ToLower` | jdtls.ext/com.microsoft.buildserver.adapter/src/com/microsoft/buildserver/adapter/BuildServerAdapter.java:127 | lower-casing keeps the length and lower-cases each character in place |
| `Strings.Contains` | jdtls.ext/com.microsoft.buildserver.adapter/src/com/microsoft/buildserver/adapter/BuildServerAdapter.java:129 | the scan answers true exactly when `sub` occurs at some index of `s` |
| `Strings.Join` | jdtls.ext/com.microsoft.buildserver.adapter/src/com/microsoft/buildserver/adapter/BuildServerAdapter.java:76 | joining gives "" for no parts; otherwise it starts with the first part, ends with the last, and its length is the parts' total plus one separator per pair of neighbours |
| `Strings.JoinTwo` | jdtls.ext/com.microsoft.buildserver.adapter/src/com/microsoft/buildserver/adapter/BuildServerAdapter.java:76 | two parts are joined as first part, separator, second part |
| `Strings.JoinSnoc` | jdtls.ext/com.microsoft.buildserver.adapter/src/com/microsoft/buildserver/adapter/BuildServerAdapter.java:76 | joining one more part at the end appends the separator and that part to the join of the others |
| `Strings.SplitJoin` | jdtls.ext/com.microsoft.buildserver.adapter/src/com/microsoft/buildserver/adapter/BuildServerAdapter.java:76 | splitting a joined list at the separator gives the list back when no part contains the separator |
| `Platform.JavaExecutablePath` | jdtls.ext/com.microsoft.buildserver.adapter/src/com/microsoft/buildserver/adapter/BuildServerAdapter.java:103-110 | the path is empty exactly when the command is absent or empty; otherwise it is the reported command |
| `Platform.ClasspathSeparator` | jdtls.ext/com.microsoft.buildserver.adapter/src/com/microsoft/buildserver/adapter/BuildServerAdapter.java:126-134 | `;` exactly when the lower-cased OS name contains `win`, `:` exactly when it does not |
| `Platform.SeparatorIsOneCharacter` | jdtls.ext/com.microsoft.buildserver.adapter/src/com/microsoft/buildserver/adapter/BuildServerAdapter.java:126-134 | the separator is always a single character |
| `Platform.EmptyOsNameIsNotWindows` | jdtls.ext/com.microsoft.buildserver.adapter/src/com/microsoft/buildserver/adapter/BuildServerAdapter.java:126-134 | an empty OS name gives `:` |
| `Platform.SeparatorIgnoresCase` | jdtls.ext/com.microsoft.buildserver.adapter/src/com/microsoft/buildserver/adapter/BuildServerAdapter.java:127-129 | names equal after lower-casing get the same separator |
| `Platform.WindowsHostUsesSemicolon` | jdtls.ext/com.microsoft.buildserver.adapter/src/com/microsoft/buildserver/adapter/BuildServerAdapter.java:129-130 | `Windows 10` gives `;` |
| `Platform.LinuxHostUsesColon` | jdtls.ext/com.microsoft.buildserver.adapter/src/com/microsoft/buildserver/adapter/BuildServerAdapter.java:133 | `Linux` gives `:` |
| `Platform.MacHostUsesColon` | jdtls.ext/com.microsoft.buildserver.adapter/src/com/microsoft/buildserver/adapter/BuildServerAdapter.java:133 | `Mac OS X` gives `:` |
| `Platform.DarwinCountsAsWindows` | jdtls.ext/com.microsoft.buildserver.adapter/src/com/microsoft/buildserver/adapter/BuildServerAdapter.java:129-130 | the test is a plain substring match: `Darwin` also gives `;` |
| `Classpath.PathJoin` | jdtls.ext/com.microsoft.buildserver.adapter/src/com/microsoft/buildserver/adapter/BuildServerAdapter.java:117-118 | a child path is the directory and the name with exactly one separator between them: inserted when the directory does not end with one, not added when it does; an empty directory gives the name alone |
| `Classpath.RuntimeClasspath` | jdtls.ext/com.microsoft.buildserver.adapter/src/com/microsoft/buildserver/adapter/BuildServerAdapter.java:112-124 | empty exactly when resolution fails; otherwise exactly two entries: the server jar, then `libs` + `/` + `*` |
| `Classpath.EntriesSpelledOut` | jdtls.ext/com.microsoft.buildserver.adapter/src/com/microsoft/buildserver/adapter/BuildServerAdapter.java:116-119 | for a directory without a trailing separator the entries are `<dir><sep>server.jar` and `<dir><sep>libs/*` |
| `Classpath.EntriesInsideBundle` | jdtls.ext/com.microsoft.buildserver.adapter/src/com/microsoft/buildserver/adapter/BuildServerAdapter.java:116-119 | both entries start with the bundle directory and end with `<sep>server.jar` and `<sep>libs/*` |
| `Launch.RemoveLastSegments` | jdtls.ext/com.microsoft.buildserver.adapter/src/com/microsoft/buildserver/adapter/BuildServerAdapter.java:65-66 | the result is a prefix of the path, shorter by `n` segments, or empty when the path has no more than `n` |
| `Launch.StorageLocation` | jdtls.ext/com.microsoft.buildserver.adapter/src/com/microsoft/buildserver/adapter/BuildServerAdapter.java:65-66 | the storage location is the root minus its last two segments, followed by `build-server` |
| `Launch.JoinSegments` | jdtls.ext/com.microsoft.buildserver.adapter/src/com/microsoft/buildserver/adapter/BuildServerAdapter.java:65-66 | the text of one or more segments starts with the separator and ends with the separator and the last segment |
| `Launch.JoinSegmentsIsJoin` | jdtls.ext/com.microsoft.buildserver.adapter/src/com/microsoft/buildserver/adapter/BuildServerAdapter.java:65-66 | the segments are written as a separator followed by the segments joined with the separator, and as nothing for no segments |
| `Launch.OsPath` | jdtls.ext/com.microsoft.buildserver.adapter/src/com/microsoft/buildserver/adapter/BuildServerAdapter.java:66 | the absolute path text starts with the device, has the separator right after it, and ends with the separator and the last segment |
| `Launch.OsPathIsJoin` | jdtls.ext/com.microsoft.buildserver.adapter/src/com/microsoft/buildserver/adapter/BuildServerAdapter.java:66 | the absolute path text is the device, the leading separator, then the segments joined with the separator (the bare separator for the root) |
| `Launch.JoinSegmentsPrefix` | jdtls.ext/com.microsoft.buildserver.adapter/src/com/microsoft/buildserver/adapter/BuildServerAdapter.java:65-66 | the text of a leading part of a path is a prefix of the path's text |
| `Launch.StoragePathLayout` | jdtls.ext/com.microsoft.buildserver.adapter/src/com/microsoft/buildserver/adapter/BuildServerAdapter.java:65-66 | the storage path is the root's grandparent text, a prefix of the root's text, then one separator and `build-server` |
| `Launch.LaunchCommand` | jdtls.ext/com.microsoft.buildserver.adapter/src/com/microsoft/buildserver/adapter/BuildServerAdapter.java:68-78 | exactly 8 arguments: exec, the three `--add-opens` flags in order, `-DbuildServerStorage=<storage>`, `-cp`, the classpath, the entry-point class |
| `Launch.ParseLaunch` | jdtls.ext/com.microsoft.buildserver.adapter/src/com/microsoft/buildserver/adapter/BuildServerAdapter.java:68-78 | a command line that reads back has 8 arguments, with the exec first and the classpath after `-cp` |
| `Launch.ParseLaunchCommand` | jdtls.ext/com.microsoft.buildserver.adapter/src/com/microsoft/buildserver/adapter/BuildServerAdapter.java:68-78 | every launch command reads back as the spec it was built from |
| `Launch.ParsedCommandIsLaunchCommand` | jdtls.ext/com.microsoft.buildserver.adapter/src/com/microsoft/buildserver/adapter/BuildServerAdapter.java:68-78 | a command line that reads back as a spec is the command built from that spec, so the encoding is injective |
| `Adapter.StoragePath` | jdtls.ext/com.microsoft.buildserver.adapter/src/com/microsoft/buildserver/adapter/BuildServerAdapter.java:65-66 | the storage path is the device and the root's segments minus the last two, then one separator and `build-server`; that grandparent text is a prefix of the root's own path |
| `Adapter.LaunchPlan` | jdtls.ext/com.microsoft.buildserver.adapter/src/com/microsoft/buildserver/adapter/BuildServerAdapter.java:54-78 | gives up on an empty executable path, then on an empty classpath; otherwise the command line is the one built from the exec, the storage path and the joined classpath, and it reads back as that spec |
| `Adapter.Step` | jdtls.ext/com.microsoft.buildserver.adapter/src/com/microsoft/buildserver/adapter/BuildServerAdapter.java:52-100 | a cached proxy is returned with nothing started; giving up changes nothing; a call from an empty cache with a complete plan records exactly one start, any other call none; a failed start leaves the cache empty; a successful one caches its proxy and connects the client; the result is always the cache's new content |
| `Adapter.Run` | jdtls.ext/com.microsoft.buildserver.adapter/src/com/microsoft/buildserver/adapter/BuildServerAdapter.java:52-100 | one result per call; the start history only grows, by at most one attempt per call |
| `Adapter.StepPreservesConsistent` | jdtls.ext/com.microsoft.buildserver.adapter/src/com/microsoft/buildserver/adapter/BuildServerAdapter.java:80-98 | one call keeps "cache filled exactly when one start succeeded, client connected to the cached proxy" |
| `Adapter.RunPreservesConsistent` | jdtls.ext/com.microsoft.buildserver.adapter/src/com/microsoft/buildserver/adapter/BuildServerAdapter.java:52-100 | any sequence of calls keeps that invariant |
| `Adapter.AtMostOneProcess` | jdtls.ext/com.microsoft.buildserver.adapter/src/com/microsoft/buildserver/adapter/BuildServerAdapter.java:52-100 | from a fresh adapter, any sequence of calls starts at most one process successfully |
| `Adapter.CachedServerIsStable` | jdtls.ext/com.microsoft.buildserver.adapter/src/com/microsoft/buildserver/adapter/BuildServerAdapter.java:53-100 | once a proxy is cached, every later call returns it and the state, start history included, stays the same |
| `Adapter.FailedStartIsRetried` | jdtls.ext/com.microsoft.buildserver.adapter/src/com/microsoft/buildserver/adapter/BuildServerAdapter.java:80-98 | after an `IOException` the result is null and the cache empty; the next call starts again and can connect |
| `Adapter.ClasspathArgumentSplits` | jdtls.ext/com.microsoft.buildserver.adapter/src/com/microsoft/buildserver/adapter/BuildServerAdapter.java:76 | the `-cp` value splits back into the two entries when neither contains the separator |
| `Adapter.WindowsClasspathArgument` | jdtls.ext/com.microsoft.buildserver.adapter/src/com/microsoft/buildserver/adapter/BuildServerAdapter.java:112-134 | on Windows, for any bundle directory `<dir>`, the `-cp` value is `<dir>\server.jar;<dir>\libs/*` |
| `Adapter.LinuxClasspathArgument` | jdtls.ext/com.microsoft.buildserver.adapter/src/com/microsoft/buildserver/adapter/BuildServerAdapter.java:112-134 | on Linux, for any bundle directory `<dir>`, the `-cp` value is `<dir>/server.jar:<dir>/libs/*` |
| `Adapter.BuildServerAdapter.constructor` | jdtls.ext/com.microsoft.buildserver.adapter/src/com/microsoft/buildserver/adapter/BuildServerAdapter.java:30-31 | a new adapter has no server, no client and no start history |
| `Adapter.BuildServerAdapter.GetBuildServer` | jdtls.ext/com.microsoft.buildserver.adapter/src/com/microsoft/buildserver/adapter/BuildServerAdapter.java:52-101 | the fields after the call and the returned proxy are exactly what `Step` gives from the fields before it |

## Left out

- Process creation and the stream piping are OS I/O. The lsp4j `Launcher`, the cached thread pool and `startListening` are the RPC transport. All of them together become one input, `StartOutcome`: a proxy, or the `IOException` from `ProcessBuilder.start`.
- Runtime exceptions anywhere inside `getBuildServer` are not modelled. Examples are `ResourcesPlugin.getWorkspace()` on a closed workspace, a null root location, or a failure in the launcher after a successful start. Such an exception escapes `getBuildServer`; in the last case it leaves the process running.
- `BspClient` is not part of this model. Its creation and `onConnectWithServer` are recorded only as the proxy the client was connected to.
- `FileLocator.toFileURL`, `getResource("/bsp")`, `ProcessHandle.current().info()`, `System.getProperty` and the workspace location are foreign calls. Their results are fields of `Host`.
- Plug-in `start`/`stop`, `getInstance`, `getDigestStore` and `DigestStore` are lifecycle glue. So is logging through `JavaLanguageServerPlugin`.
- There is no lock around the lazy initialisation. Races between concurrent callers are not modelled; calls are sequential.
- A null `adapterInstance` would cause a `NullPointerException`. The model always calls the method on an existing object.
- The `null` test on the executable path cannot succeed, because `getJavaExecutablePath` never returns null. The model keeps only the emptiness test.
- A null `os.name` property is not modelled. It would throw in `getClasspathSplitor`.
- Strings.LowerChar, Strings.ToLower: lower-case only the ASCII letters A-Z. It does not model Java's Unicode and locale-dependent rules, such as the Turkish dotless i.
- Classpath.PathJoin: models only the single join `Paths.get` performs here, including a directory that already ends with a separator. Other normalisation (repeated separators, `/` accepted on Windows) is not modelled.
- Launch.OsPath: takes the workspace root as a device prefix plus segments, with a leading separator. UNC paths and drive-relative paths on Windows are not modelled.
