/** `getBuildServerRuntimeClasspath`: the two classpath entries of the bundled
    build server, found under the plug-in's `bsp` resource directory. */
module Classpath {
  import opened Options

  const ServerJar := "server.jar"
  const LibsDir := "libs"
  /** `org.eclipse.core.runtime.Path.SEPARATOR`, the same on every platform. */
  const EclipseSeparator := '/'
  const Wildcard := "*"

  /** `Paths.get(dir, name).toString()` for a single child `name`, where `sep`
      is the separator of the host's default file system. */
  function PathJoin(dir: string, name: string, sep: char): (p: string)
    ensures p == dir + name || p == dir + [sep] + name
    ensures dir != "" ==> p[|p| - |name| - 1] == sep
    ensures dir == "" ==> p == name
    ensures dir != "" && dir[|dir| - 1] == sep ==> p == dir + name
    ensures dir != "" && dir[|dir| - 1] != sep ==> p == dir + [sep] + name
  {
    if dir == "" then name
    else if dir[|dir| - 1] == sep then dir + name
    else dir + [sep] + name
  }

  /** The runtime classpath. `bundleDir` is the absolute path the `/bsp` resource
      resolves to, or `None` when locating or converting it throws; `fileSep` is
      the host's file separator. */
  function RuntimeClasspath(bundleDir: Option<string>, fileSep: char): (cp: seq<string>)
    ensures bundleDir.None? <==> cp == []
    ensures bundleDir.Some? ==> |cp| == 2
    ensures bundleDir.Some? ==> cp[0] == PathJoin(bundleDir.value, ServerJar, fileSep)
    ensures bundleDir.Some? ==>
              cp[1] == PathJoin(bundleDir.value, LibsDir, fileSep) + [EclipseSeparator] + Wildcard
  {
    match bundleDir
    case None => []
    case Some(dir) =>
      [ PathJoin(dir, ServerJar, fileSep),
        PathJoin(dir, LibsDir, fileSep) + [EclipseSeparator] + Wildcard ]
  }

  /** For a directory without a trailing separator, the entries are spelled out
      with exactly one file separator before each name. */
  lemma EntriesSpelledOut(dir: string, fileSep: char)
    requires dir != "" && dir[|dir| - 1] != fileSep
    ensures RuntimeClasspath(Some(dir), fileSep)
            == [dir + [fileSep] + ServerJar, dir + [fileSep] + LibsDir + "/*"]
  {
    assert PathJoin(dir, LibsDir, fileSep) + [EclipseSeparator] + Wildcard
        == dir + [fileSep] + LibsDir + "/*";
  }

  /** Both entries live in the bundle directory: each starts with its path, the
      first names the server jar and the second every file of `libs`. */
  lemma EntriesInsideBundle(dir: string, fileSep: char)
    requires dir != ""
    ensures var cp := RuntimeClasspath(Some(dir), fileSep);
            && dir <= cp[0] && dir <= cp[1]
            && cp[0][|cp[0]| - |ServerJar| - 1..] == [fileSep] + ServerJar
            && cp[1][|cp[1]| - |LibsDir| - 3..] == [fileSep] + LibsDir + "/*"
  {
    var cp := RuntimeClasspath(Some(dir), fileSep);
    var jar := PathJoin(dir, ServerJar, fileSep);
    var libs := PathJoin(dir, LibsDir, fileSep);
    assert jar[|jar| - |ServerJar| - 1..] == [fileSep] + ServerJar;
    assert libs[|libs| - |LibsDir| - 1..] == [fileSep] + LibsDir;
    assert cp[1] == libs + "/*";
    assert cp[1][|cp[1]| - |LibsDir| - 3..] == libs[|libs| - |LibsDir| - 1..] + "/*";
  }
}
