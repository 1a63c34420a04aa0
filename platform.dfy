/** What the adapter asks of the host it runs on: the path of the running Java
    executable and the separator between classpath entries. */
module Platform {
  import opened Options
  import opened Strings

  /** The marker whose presence in the lower-cased OS name means a Windows host. */
  const WindowsMarker := "win"

  /** `getJavaExecutablePath`: the command of the current process as reported by
      the process handle (`command`), or the empty string when it is not reported. */
  function JavaExecutablePath(command: Option<string>): (path: string)
    ensures path != "" ==> command == Some(path)
    ensures path == "" <==> (command.None? || command.value == "")
  {
    match command
    case Some(c) => c
    case None => ""
  }

  /** `getClasspathSplitor`: `;` on Windows-family hosts, `:` on every other one,
      decided from the `os.name` property alone. */
  function ClasspathSeparator(osName: string): (sep: string)
    ensures sep == ";" <==> OccursIn(ToLower(osName), WindowsMarker)
    ensures sep == ":" <==> !OccursIn(ToLower(osName), WindowsMarker)
  {
    if Contains(ToLower(osName), WindowsMarker) then ";" else ":"
  }

  /** The separator is a single character, so it can serve as a cut point for `Split`. */
  lemma SeparatorIsOneCharacter(osName: string)
    ensures |ClasspathSeparator(osName)| == 1
  {
  }

  /** An empty OS name is not Windows. */
  lemma EmptyOsNameIsNotWindows()
    ensures ClasspathSeparator("") == ":"
  {
  }

  /** The test is case-insensitive: two names that agree once lower-cased get the same separator. */
  lemma SeparatorIgnoresCase(a: string, b: string)
    requires ToLower(a) == ToLower(b)
    ensures ClasspathSeparator(a) == ClasspathSeparator(b)
  {
  }

  lemma WindowsHostUsesSemicolon()
    ensures ClasspathSeparator("Windows 10") == ";"
  {
    assert ToLower("Windows 10")[..3] == WindowsMarker;
    assert OccursAt(ToLower("Windows 10"), WindowsMarker, 0);
  }

  lemma LinuxHostUsesColon()
    ensures ClasspathSeparator("Linux") == ":"
  {
    assert ToLower("Linux") == "linux";
    NotOccursWithoutFirstCharacter("linux", WindowsMarker);
  }

  lemma MacHostUsesColon()
    ensures ClasspathSeparator("Mac OS X") == ":"
  {
    assert ToLower("Mac OS X") == "mac os x";
    NotOccursWithoutFirstCharacter("mac os x", WindowsMarker);
  }

  /** The marker is a plain substring test: any name containing "win" counts,
      "Darwin" included. */
  lemma DarwinCountsAsWindows()
    ensures ClasspathSeparator("Darwin") == ";"
  {
  }
}
