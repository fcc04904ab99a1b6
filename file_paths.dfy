/** Go's `filepath.Join` for two elements on a system whose separator is '/'. */
module FilePaths {

  const Separator: char := '/'

  /** Joins `dir` and `elem` with one separator. Empty elements are dropped, as
      `filepath.Join` drops them; a `dir` that already ends in the separator
      gets no second one. */
  function Join(dir: string, elem: string): (r: string)
    ensures dir == "" ==> r == elem
    ensures elem == "" ==> r == dir
    ensures dir != "" && elem != "" ==>
              && |dir| + |elem| <= |r| <= |dir| + |elem| + 1
              && r[..|dir|] == dir
              && r[|r| - |elem|..] == elem
              && r[|r| - |elem| - 1] == Separator
    ensures dir != "" && elem != "" ==>
              |r| == if dir[|dir| - 1] == Separator then |dir| + |elem| else |dir| + |elem| + 1
  {
    if dir == "" then elem
    else if elem == "" then dir
    else if dir[|dir| - 1] == Separator then dir + elem
    else dir + [Separator] + elem
  }
}
