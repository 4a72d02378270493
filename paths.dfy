/** POSIX path joining, as `os.path.join` does it for two arguments. */
module Paths {

  const Separator: char := '/'

  predicate IsAbsolute(p: string) {
    |p| > 0 && p[0] == Separator
  }

  predicate EndsWithSeparator(p: string) {
    |p| > 0 && p[|p| - 1] == Separator
  }

  /** `os.path.join(a, b)`: an absolute `b` discards `a`; otherwise one
      separator is put between them unless `a` is empty or already ends in one. */
  function Join(a: string, b: string): string {
    if IsAbsolute(b) then b else a + Glue(a) + b
  }

  /** The separator `Join` puts between `a` and a relative second part. */
  function Glue(a: string): string {
    if a == [] || EndsWithSeparator(a) then [] else [Separator]
  }

  /** A relative component is appended after its prefix: the result starts
      with `a`, ends with `b`, and adds at most one separator between them. */
  lemma JoinRelative(a: string, b: string)
    requires !IsAbsolute(b)
    ensures |a| + |b| <= |Join(a, b)| <= |a| + |b| + 1
    ensures Join(a, b)[..|a|] == a
    ensures Join(a, b)[|Join(a, b)| - |b|..] == b
    ensures a != [] && !EndsWithSeparator(a) ==> Join(a, b)[|a|] == Separator
  {
  }

  /** Joining is associative, so a path built in two steps equals the path
      built from the joined tail in one. */
  lemma JoinAssociative(a: string, b: string, c: string)
    ensures Join(Join(a, b), c) == Join(a, Join(b, c))
  {
    if !IsAbsolute(c) && b != [] {
      if IsAbsolute(b) {
        assert Join(b, c)[0] == b[0];
      } else {
        JoinRelativeMiddle(a, b, c);
      }
    }
  }

  lemma EndsLikeTail(x: string, b: string)
    requires b != []
    ensures EndsWithSeparator(x + b) == EndsWithSeparator(b)
    ensures x + b != []
  {
  }

  lemma JoinRelativeMiddle(a: string, b: string, c: string)
    requires b != [] && !IsAbsolute(b) && !IsAbsolute(c)
    ensures Join(Join(a, b), c) == Join(a, Join(b, c))
  {
    var ab := a + Glue(a) + b;
    var bc := b + Glue(b) + c;
    EndsLikeTail(a + Glue(a), b);
    assert Glue(ab) == Glue(b);
    assert bc[0] == b[0];
    assert ab + Glue(b) + c == a + Glue(a) + bc;
  }
}
