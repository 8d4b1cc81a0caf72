/** The pieces of Python's `os.path` and `str` that the pipeline uses to
    build and take apart file names (POSIX paths). */
module Paths {

  /** `os.path.join(a, b)`: an absolute `b` replaces `a`; otherwise a '/'
      is inserted unless `a` is empty or already ends with one. */
  function Join(a: string, b: string): string {
    if |b| > 0 && b[0] == '/' then b
    else if a == "" || a[|a| - 1] == '/' then a + b
    else a + "/" + b
  }

  /** `os.path.basename(p)`: the longest suffix of `p` without a '/'. */
  function Basename(p: string): (r: string)
    ensures |r| <= |p| && r == p[|p| - |r|..]
    ensures '/' !in r
    ensures |r| < |p| ==> p[|p| - |r| - 1] == '/'
  {
    if p == [] || p[|p| - 1] == '/' then []
    else Basename(p[..|p| - 1]) + [p[|p| - 1]]
  }

  /** `s.split('_')[0]`: the longest prefix of `s` without a '_' (all of
      `s` when it has none; the empty string when it starts with '_'). */
  function FirstToken(s: string): (r: string)
    ensures |r| <= |s| && r == s[..|r|]
    ensures '_' !in r
    ensures |r| < |s| ==> s[|r|] == '_'
  {
    if s == [] || s[0] == '_' then [] else [s[0]] + FirstToken(s[1..])
  }

  /** `s.endswith(suffix)` */
  predicate EndsWith(s: string, suffix: string) {
    |suffix| <= |s| && s[|s| - |suffix|..] == suffix
  }

  /** The base name of a file joined under a directory is the file's own
      name, provided that name holds no '/'. */
  lemma {:induction false} BasenameOfJoin(dir: string, name: string)
    requires '/' !in name
    ensures Basename(Join(dir, name)) == name
  {
    var p := Join(dir, name);
    assert |name| > 0 ==> name[0] in name;
    var pre := p[..|p| - |name|];
    assert p == pre + name;
    assert pre == [] || pre[|pre| - 1] == '/';
  }

  /** Splitting `head + "_" + tail` on '_' gives back `head` when `head`
      itself holds no '_'. */
  lemma {:induction false} FirstTokenOfJoined(head: string, tail: string)
    requires '_' !in head
    ensures FirstToken(head + "_" + tail) == head
  {
    var s := head + "_" + tail;
    assert s[..|head|] == head && s[|head|] == '_';
  }
}
