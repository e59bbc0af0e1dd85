/** Commits as content-addressed objects: a commit is its parents, its tree and a note (author, time,
    message), so equal objects are the same commit. Used where branches grow while they are observed. */
module CommitObjects {
  type Path = string

  // File contents; a blob id stands for the content it hashes.
  type Tree = map<Path, string>

  datatype Commit = Commit(parents: seq<Commit>, tree: Tree, note: nat)

  predicate Ancestor(a: Commit, d: Commit) {
    a == d || exists i :: 0 <= i < |d.parents| && Ancestor(a, d.parents[i])
  }

  // The longest way back to a root commit.
  function Height(c: Commit): nat
    decreases c, |c.parents| + 1
  {
    HighestParent(c, |c.parents|)
  }

  function HighestParent(c: Commit, n: nat): nat
    requires n <= |c.parents|
    decreases c, n
  {
    if n == 0 then 0
    else
      var before, last := HighestParent(c, n - 1), Height(c.parents[n - 1]) + 1;
      if before < last then last else before
  }

  lemma {:induction false} ParentIsLower(c: Commit, i: nat, n: nat)
    requires i < n <= |c.parents|
    ensures Height(c.parents[i]) < HighestParent(c, n)
  {
    if i < n - 1 {
      ParentIsLower(c, i, n - 1);
    }
  }

  lemma {:induction false} AncestorIsLower(a: Commit, d: Commit)
    requires Ancestor(a, d)
    ensures a == d || Height(a) < Height(d)
    decreases d
  {
    if a != d {
      var i :| 0 <= i < |d.parents| && Ancestor(a, d.parents[i]);
      AncestorIsLower(a, d.parents[i]);
      ParentIsLower(d, i, |d.parents|);
    }
  }

  lemma {:induction false} AncestorTransitive(a: Commit, b: Commit, c: Commit)
    requires Ancestor(a, b) && Ancestor(b, c)
    ensures Ancestor(a, c)
    decreases c
  {
    if b != c {
      var i :| 0 <= i < |c.parents| && Ancestor(b, c.parents[i]);
      AncestorTransitive(a, b, c.parents[i]);
    }
  }

  // Commits cannot form a cycle, with merges or without.
  lemma AncestorAntisymmetric(a: Commit, b: Commit)
    requires Ancestor(a, b) && Ancestor(b, a)
    ensures a == b
  {
    AncestorIsLower(a, b);
    AncestorIsLower(b, a);
  }

  // A child of e has e's ancestors and itself.
  lemma ChildAncestors(a: Commit, c: Commit, e: Commit)
    requires c.parents == [e]
    ensures Ancestor(a, c) <==> a == c || Ancestor(a, e)
  {
    if Ancestor(a, e) { assert Ancestor(a, c.parents[0]); }
  }
}
