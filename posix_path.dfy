/**
 * `os.path.join` on POSIX (posixpath.join): a left fold that appends each
 * component after a single '/', restarts at an absolute component, and adds
 * no separator after a path that is empty or already ends in '/'.
 */
module PosixPath {
  import opened Strings

  const Sep: string := "/"

  /** One step of the fold: `path` joined with the next component `b`. */
  function JoinStep(path: string, b: string): string
  {
    if StartsWith(b, Sep) then b
    else if path == "" || EndsWith(path, Sep) then path + b
    else path + Sep + b
  }

  /** `os.path.join(a, *parts)` */
  function Join(a: string, parts: seq<string>): string
    decreases |parts|
  {
    if parts == [] then a else Join(JoinStep(a, parts[0]), parts[1..])
  }

  /** A component that neither starts nor ends with the separator (it may be empty). */
  predicate Plain(c: string)
  {
    c == "" || (c[0] != '/' && c[|c| - 1] != '/')
  }

  /** A root that the walk and the joins can extend: non-empty, no trailing separator. */
  predicate WellFormedRoot(root: string)
  {
    root != "" && root[|root| - 1] != '/'
  }

  /** A well-formed root takes a separator before the next component. */
  lemma WellFormedRootNeedsSeparator(root: string)
    requires WellFormedRoot(root)
    ensures root != "" && !EndsWith(root, Sep)
  {
    assert root[|root| - 1..][0] == root[|root| - 1];
  }

  /** Reference: each non-empty component preceded by one '/', empty components dropped. */
  function Slashed(parts: seq<string>): string
  {
    if parts == [] then ""
    else (if parts[0] == "" then "" else Sep + parts[0]) + Slashed(parts[1..])
  }

  /** A single non-empty component is written after one separator. */
  lemma SlashedOne(a: string)
    requires a != ""
    ensures Slashed([a]) == Sep + a
  {
    assert Slashed([a]) == Sep + a + Slashed([]);
  }

  /** Two non-empty components, each written after a separator. */
  lemma SlashedTwo(a: string, b: string)
    requires a != "" && b != ""
    ensures Slashed([a, b]) == Sep + a + Sep + b
  {
    assert [a, b][1..] == [b];
    SlashedOne(b);
    assert Slashed([a, b]) == Sep + a + Slashed([b]);
  }

  /** The first component of a reference join. */
  lemma SlashedCons(c: string, rest: seq<string>)
    ensures Slashed([c] + rest) == (if c == "" then "" else Sep + c) + Slashed(rest)
  {
  }

  /** An empty component followed by another one contributes nothing. */
  lemma EmptyStepVanishes(a: string, b: string)
    ensures JoinStep(JoinStep(a, ""), b) == JoinStep(a, b)
  {
  }

  /** After a well-formed prefix, a trailing '/' left by an empty component changes nothing downstream. */
  lemma JoinAfterSeparator(acc: string, tail: seq<string>)
    requires WellFormedRoot(acc)
    requires tail != []
    ensures Join(acc + Sep, tail) == Join(acc, tail)
  {
  }

  /** Joining a plain non-empty component to a well-formed root inserts one '/' and stays well formed. */
  lemma JoinStepPlain(root: string, c: string)
    requires WellFormedRoot(root) && Plain(c) && c != ""
    ensures JoinStep(root, c) == root + Sep + c
    ensures WellFormedRoot(root + Sep + c)
  {
  }

  /** One component of a plain join: the root grows by '/' and the component, or not at all when it is empty. */
  lemma JoinPlainHead(root: string, c: string, rest: seq<string>)
    requires WellFormedRoot(root) && Plain(c)
    requires c != "" || rest != []
    ensures var next := if c == "" then root else root + Sep + c;
      && WellFormedRoot(next)
      && Join(root, [c] + rest) == Join(next, rest)
      && root + Slashed([c] + rest) == next + Slashed(rest)
  {
    assert ([c] + rest)[1..] == rest;
    if c == "" {
      WellFormedRootNeedsSeparator(root);
      assert JoinStep(root, c) == root + Sep;
      JoinAfterSeparator(root, rest);
    } else {
      JoinStepPlain(root, c);
      assert root + (Sep + c + Slashed(rest)) == (root + Sep + c) + Slashed(rest);
    }
  }

  /**
   * For plain components after a well-formed root, `os.path.join` is the root
   * followed by '/' and each non-empty component; an empty component in the
   * middle contributes nothing. The last component must be non-empty: an
   * empty last component would leave a trailing '/'.
   */
  lemma {:induction false} JoinPlain(root: string, parts: seq<string>)
    requires WellFormedRoot(root)
    requires forall i :: 0 <= i < |parts| ==> Plain(parts[i])
    requires parts == [] || parts[|parts| - 1] != ""
    ensures Join(root, parts) == root + Slashed(parts)
    decreases |parts|
  {
    if parts != [] {
      var c, rest := parts[0], parts[1..];
      assert parts == [c] + rest;
      assert rest != [] ==> rest[|rest| - 1] == parts[|parts| - 1];
      assert forall i :: 0 <= i < |rest| ==> Plain(rest[i]) by {
        forall i | 0 <= i < |rest| ensures Plain(rest[i]) {
          assert rest[i] == parts[i + 1];
        }
      }
      JoinPlainHead(root, c, rest);
      JoinPlain(if c == "" then root else root + Sep + c, rest);
    }
  }
}
