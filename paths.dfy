/** `os.path.join` and what it means for one path to lie inside a folder. */
module Paths {

  /** The directory separator of the host's `os.path` module. */
  type Separator = c: char | c == '/' || c == '\\' witness '/'

  /** `os.path.join(a, b)` with POSIX rules over the host's separator: an
      absolute second component replaces the first; otherwise the two are
      joined with one separator, none being added after an empty first
      component or one that already ends with the separator. */
  function Join(sep: Separator, a: string, b: string): string {
    if |b| > 0 && b[0] == sep then b
    else if a == [] || a[|a| - 1] == sep then a + b
    else a + [sep] + b
  }

  /** `os.path.join(a, b, c)`. */
  function Join3(sep: Separator, a: string, b: string, c: string): string {
    Join(sep, Join(sep, a, b), c)
  }

  /** A non-empty component that does not start with the separator. */
  predicate IsRelative(sep: Separator, b: string) {
    |b| > 0 && b[0] != sep
  }

  /** `p` names something strictly inside `folder`: it starts with `folder`
      and continues after a separator boundary. */
  predicate Under(sep: Separator, folder: string, p: string) {
    |folder| < |p| && p[..|folder|] == folder &&
    (folder == [] || folder[|folder| - 1] == sep || p[|folder|] == sep)
  }

  /** Joining a relative component always lands inside the first component
      and ends with the second one. */
  lemma JoinUnder(sep: Separator, a: string, b: string)
    requires IsRelative(sep, b)
    ensures Under(sep, a, Join(sep, a, b))
    ensures Join(sep, a, b)[|Join(sep, a, b)| - |b|..] == b
  {
    var p := Join(sep, a, b);
    if a == [] || a[|a| - 1] == sep {
      assert p == a + b;
      assert p[..|a|] == a;
    } else {
      assert p == a + [sep] + b;
      assert p[..|a|] == a;
    }
  }

  lemma UnderTransitive(sep: Separator, a: string, b: string, c: string)
    requires Under(sep, a, b) && Under(sep, b, c)
    ensures Under(sep, a, c)
  {
    assert c[..|b|][..|a|] == c[..|a|];
    if a != [] && a[|a| - 1] != sep {
      assert c[|a|] == c[..|b|][|a|];
    }
  }

  /** `os.path.join(a, b, c)` with two relative components lies inside `a`. */
  lemma Join3Under(sep: Separator, a: string, b: string, c: string)
    requires IsRelative(sep, b) && IsRelative(sep, c)
    ensures Under(sep, a, Join3(sep, a, b, c))
    ensures Under(sep, Join(sep, a, b), Join3(sep, a, b, c))
  {
    JoinUnder(sep, a, b);
    JoinUnder(sep, Join(sep, a, b), c);
    UnderTransitive(sep, a, Join(sep, a, b), Join3(sep, a, b, c));
  }

  /** Joining distinct relative components under one folder gives distinct paths. */
  lemma JoinInjective(sep: Separator, a: string, b1: string, b2: string)
    requires IsRelative(sep, b1) && IsRelative(sep, b2)
    requires Join(sep, a, b1) == Join(sep, a, b2)
    ensures b1 == b2
  {
    var p1, p2 := Join(sep, a, b1), Join(sep, a, b2);
    if a == [] || a[|a| - 1] == sep {
      assert b1 == p1[|a|..] == p2[|a|..] == b2;
    } else {
      assert b1 == p1[|a| + 1..] == p2[|a| + 1..] == b2;
    }
  }
}
