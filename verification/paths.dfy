/** POSIX path joining, as Python's `os.path.join` performs it. */
module Paths {

  /** True if `p` is an absolute path. */
  predicate Absolute(p: string) {
    |p| > 0 && p[0] == '/'
  }

  /** True if `p` is non-empty and does not end in a separator. */
  predicate NeedsSeparator(p: string) {
    |p| > 0 && p[|p| - 1] != '/'
  }

  /** `os.path.join(a, b)`: an absolute `b` replaces `a`; otherwise `b` is appended,
      with a `/` in between unless `a` is empty or already ends in one. */
  function Join(a: string, b: string): (r: string)
    ensures Absolute(b) ==> r == b
    ensures !Absolute(b) && NeedsSeparator(a) ==> r == a + "/" + b
    ensures !Absolute(b) && !NeedsSeparator(a) ==> r == a + b
  {
    if Absolute(b) then b
    else if NeedsSeparator(a) then a + "/" + b
    else a + b
  }

  /** `os.path.join(a, b, c)`. */
  function Join3(a: string, b: string, c: string): string {
    Join(Join(a, b), c)
  }

  /** The text that joining onto `a` puts in front of a relative component. */
  function JoinPrefix(a: string): (p: string)
    ensures forall b :: !Absolute(b) ==> Join(a, b) == p + b
  {
    if NeedsSeparator(a) then a + "/" else a
  }

  /** Joining two different relative components onto the same directory gives two
      different paths. */
  lemma JoinInjective(a: string, x: string, y: string)
    requires !Absolute(x) && !Absolute(y)
    requires Join(a, x) == Join(a, y)
    ensures x == y
  {
    var p := JoinPrefix(a);
    assert p + x == p + y;
    assert x == (p + x)[|p|..];
    assert y == (p + y)[|p|..];
  }

  /** What a caller can rely on from a join: the result ends in `b`; for a relative
      `b` it starts with `a`, and the only thing between the two is a single `/`,
      present exactly when `a` is non-empty and does not already end in one. */
  lemma JoinShape(a: string, b: string)
    ensures var r := Join(a, b);
      && |r| >= |b| && r[|r| - |b|..] == b
      && (Absolute(b) ==> |r| == |b|)
      && (!Absolute(b) ==> |r| >= |a| && r[..|a|] == a)
      && (!Absolute(b) && NeedsSeparator(a) ==> |r| == |a| + 1 + |b| && r[|a|] == '/')
      && (!Absolute(b) && !NeedsSeparator(a) ==> |r| == |a| + |b|)
  {
    var r := Join(a, b);
    if !Absolute(b) && NeedsSeparator(a) {
      assert r == a + "/" + b;
      assert r[|r| - |b|..] == b && r[..|a|] == a;
    } else if !Absolute(b) {
      assert r == a + b;
      assert r[|r| - |b|..] == b && r[..|a|] == a;
    }
  }
}
