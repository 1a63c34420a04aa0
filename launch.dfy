/** The command line `getBuildServer` hands to `ProcessBuilder`, and the
    storage directory it passes to the build server. */
module Launch {
  import opened Options
  import opened Strings

  const AddOpensLang := "--add-opens=java.base/java.lang=ALL-UNNAMED"
  const AddOpensIo := "--add-opens=java.base/java.io=ALL-UNNAMED"
  const AddOpensUtil := "--add-opens=java.base/java.util=ALL-UNNAMED"
  const StorageProperty := "-DbuildServerStorage="
  const ClasspathFlag := "-cp"
  const EntryPoint := "com.microsoft.java.bs.core.JavaBspLauncher"
  const BuildServerDir := "build-server"

  // ----- storage directory -----

  /** `IPath.removeLastSegments(n)`: the first `|segs| - n` segments, or none at all
      when the path has no more than `n`. */
  function RemoveLastSegments(segs: seq<string>, n: nat): (r: seq<string>)
    ensures r <= segs
    ensures |r| == if |segs| <= n then 0 else |segs| - n
  {
    if |segs| <= n then [] else segs[..|segs| - n]
  }

  /** The segments of the storage directory: the workspace root location with its
      last two segments removed and `build-server` appended. */
  function StorageLocation(root: seq<string>): (loc: seq<string>)
    ensures |loc| >= 1 && loc[|loc| - 1] == BuildServerDir
    ensures loc[..|loc| - 1] == RemoveLastSegments(root, 2)
  {
    RemoveLastSegments(root, 2) + [BuildServerDir]
  }

  /** The segments written out, each preceded by the separator. */
  function JoinSegments(segs: seq<string>, sep: char): (r: string)
    ensures segs != [] ==> |r| > 0 && r[0] == sep
    ensures segs != [] ==> EndsWith(r, [sep] + segs[|segs| - 1])
  {
    if segs == [] then ""
    else JoinSegments(segs[..|segs| - 1], sep) + [sep] + segs[|segs| - 1]
  }

  /** The text of the segments is a separator, then the segments joined by the
      separator (`String.join` with the separator as delimiter). */
  lemma {:induction false} JoinSegmentsIsJoin(segs: seq<string>, sep: char)
    ensures JoinSegments(segs, sep) == if segs == [] then "" else [sep] + Join([sep], segs)
    decreases |segs|
  {
    if segs != [] {
      var init, last := segs[..|segs| - 1], segs[|segs| - 1];
      assert init + [last] == segs;
      if init == [] {
        assert Join([sep], segs) == last;
      } else {
        JoinSegmentsIsJoin(init, sep);
        JoinSnoc([sep], init, last);
        var joined := Join([sep], init);
        assert JoinSegments(segs, sep) == ([sep] + joined) + [sep] + last;
        assert ([sep] + joined) + [sep] + last == [sep] + (joined + [sep] + last);
      }
    }
  }

  /** `toFile().getAbsolutePath()` of an absolute path with the given device prefix
      (empty on Unix-like hosts) and segments; the root alone is the bare separator. */
  function OsPath(device: string, segs: seq<string>, sep: char): (p: string)
    ensures device <= p
    ensures |p| > |device| && p[|device|] == sep
    ensures segs != [] ==> EndsWith(p, [sep] + segs[|segs| - 1])
  {
    device + (if segs == [] then [sep] else JoinSegments(segs, sep))
  }

  /** The text of an absolute path is its device, the leading separator, then the
      segments joined by the separator. */
  lemma OsPathIsJoin(device: string, segs: seq<string>, sep: char)
    ensures OsPath(device, segs, sep) == device + [sep] + Join([sep], segs)
  {
    JoinSegmentsIsJoin(segs, sep);
  }

  /** Writing out the first `k` segments gives a prefix of writing out all of them. */
  lemma {:induction false} JoinSegmentsPrefix(segs: seq<string>, k: nat, sep: char)
    requires k <= |segs|
    ensures JoinSegments(segs[..k], sep) <= JoinSegments(segs, sep)
    decreases |segs|
  {
    if k < |segs| {
      var init := segs[..|segs| - 1];
      assert segs[..k] == init[..k];
      JoinSegmentsPrefix(init, k, sep);
    } else {
      assert segs[..k] == segs;
    }
  }

  /** The storage path is the text of the workspace root's grandparent, which is a
      prefix of the root's own text, followed by one separator and `build-server`. */
  lemma {:induction false} StoragePathLayout(device: string, root: seq<string>, sep: char)
    ensures var grand := device + JoinSegments(RemoveLastSegments(root, 2), sep);
            && OsPath(device, StorageLocation(root), sep) == grand + [sep] + BuildServerDir
            && grand <= OsPath(device, root, sep)
  {
    var loc := StorageLocation(root);
    var g := RemoveLastSegments(root, 2);
    assert loc[..|loc| - 1] == g;
    JoinSegmentsPrefix(root, |g|, sep);
    assert root[..|g|] == g;
    if root == [] {
      assert JoinSegments(g, sep) == "";
    }
  }

  // ----- command line -----

  /** The variable parts of a launch: the Java executable, the storage directory
      and the joined classpath. */
  datatype LaunchSpec = LaunchSpec(exec: string, storage: string, classpath: string)

  /** The arguments given to `ProcessBuilder`, in order. */
  function LaunchCommand(spec: LaunchSpec): (args: seq<string>)
    ensures |args| == 8
    ensures args[0] == spec.exec
    ensures args[1..4] == [AddOpensLang, AddOpensIo, AddOpensUtil]
    ensures args[4] == StorageProperty + spec.storage
    ensures args[5] == ClasspathFlag && args[6] == spec.classpath
    ensures args[7] == EntryPoint
  {
    [ spec.exec,
      AddOpensLang, AddOpensIo, AddOpensUtil,
      StorageProperty + spec.storage,
      ClasspathFlag, spec.classpath,
      EntryPoint ]
  }

  /** Reads a launch command line back: `None` unless it has exactly the fixed
      flags in their places. */
  function ParseLaunch(args: seq<string>): (r: Option<LaunchSpec>)
    ensures r.Some? ==> |args| == 8 && args[0] == r.value.exec
    ensures r.Some? ==> args[5] == ClasspathFlag && args[6] == r.value.classpath
  {
    if |args| == 8
       && args[1..4] == [AddOpensLang, AddOpensIo, AddOpensUtil]
       && StorageProperty <= args[4]
       && args[5] == ClasspathFlag
       && args[7] == EntryPoint
    then Some(LaunchSpec(args[0], args[4][|StorageProperty|..], args[6]))
    else None
  }

  /** Every launch command line reads back as the spec it was built from. */
  lemma ParseLaunchCommand(spec: LaunchSpec)
    ensures ParseLaunch(LaunchCommand(spec)) == Some(spec)
  {
  }

  /** A command line that reads back as a spec is the one built from it, so two
      different specs never give the same command line. */
  lemma ParsedCommandIsLaunchCommand(args: seq<string>, spec: LaunchSpec)
    requires ParseLaunch(args) == Some(spec)
    ensures LaunchCommand(spec) == args
  {
    assert args[4] == StorageProperty + args[4][|StorageProperty|..];
    var cmd := LaunchCommand(spec);
    assert cmd[1..4] == args[1..4];
    assert forall i :: 0 <= i < 8 ==> cmd[i] == args[i];
  }
}
