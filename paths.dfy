/** POSIX path composition as `os.path.join` performs it for two components. */
module Paths {

  predicate EndsWith(s: string, suffix: string)
  {
    |suffix| <= |s| && s[|s| - |suffix|..] == suffix
  }

  predicate IsAbsolute(p: string)
  {
    |p| > 0 && p[0] == '/'
  }

  /** `os.path.join(dir, name)`: an absolute `name` replaces `dir`; otherwise a separator is
      inserted unless `dir` is empty or already ends with one. */
  function Join(dir: string, name: string): (p: string)
    ensures EndsWith(p, name)
    ensures IsAbsolute(name) ==> p == name
    ensures !IsAbsolute(name) ==> |dir| <= |p| && p[..|dir|] == dir
    ensures !IsAbsolute(name) && dir != "" ==> |name| < |p| && p[|p| - |name| - 1] == '/'
  {
    if IsAbsolute(name) then name
    else if dir == "" then name
    else if dir[|dir| - 1] == '/' then dir + name
    else dir + "/" + name
  }

  /** Two relative names give the same path under the same directory only if they are equal:
      `Join` is injective in its second component. */
  lemma {:induction false} JoinInjective(dir: string, a: string, b: string)
    requires !IsAbsolute(a) && !IsAbsolute(b)
    requires Join(dir, a) == Join(dir, b)
    ensures a == b
  {
    var p := Join(dir, a);
    var k := if dir == "" then 0 else if dir[|dir| - 1] == '/' then |dir| else |dir| + 1;
    assert p == Join(dir, a) && p[k..] == a;
    assert p == Join(dir, b) && p[k..] == b;
  }
}
