/** The part of Go's `path/filepath` the core uses: joining a directory and a file name. */
module FilePath {

  const Separator: char := '/'

  /** `filepath.Join(dir, name)` for a plain file name: an empty directory is dropped,
      otherwise the two are joined by one separator. */
  function Join(dir: string, name: string): (p: string)
    ensures dir == "" ==> p == name
    ensures dir != "" ==> |p| == |dir| + 1 + |name| && p[..|dir|] == dir && p[|dir|] == Separator && p[|dir| + 1..] == name
  {
    if dir == "" then name else dir + [Separator] + name
  }

  /** Joining two directories with the same file name gives two paths, one per directory. */
  lemma JoinInjective(a: string, b: string, name: string)
    requires Join(a, name) == Join(b, name)
    ensures a == b
  {
  }
}
