/** The Git commit graph as trusted reconciliation sees it: an immutable map from
    commits to their parents. A commit id stands for its SHA; only equality matters. */
module CommitGraph {
  import opened Sequences

  type Sha = nat

  // The generation number of a commit exceeds that of every parent, so parents are well founded.
  datatype Graph = Graph(parents: map<Sha, seq<Sha>>, generation: map<Sha, nat>) {
    ghost predicate WellFormed() {
      && parents.Keys == generation.Keys
      && forall c, i :: c in parents && 0 <= i < |parents[c]| ==>
                          && parents[c][i] in parents
                          && generation[parents[c][i]] < generation[c]
    }

    predicate SingleParent(c: Sha) {
      c in parents && |parents[c]| == 1
    }

    // git merge-base --is-ancestor: reflexive, through any parent.
    predicate Ancestor(a: Sha, d: Sha)
      requires WellFormed() && d in parents
      decreases generation[d]
    {
      a == d || exists i :: 0 <= i < |parents[d]| && Ancestor(a, parents[d][i])
    }

    // The commits that git rev-list base..head ranges over.
    ghost predicate InRange(base: Sha, head: Sha, c: Sha)
      requires WellFormed() && base in parents && head in parents
    {
      Ancestor(c, head) && !Ancestor(c, base)
    }

    ghost predicate HasLaterChild(listing: seq<Sha>, i: nat)
      requires i < |listing|
    {
      exists j :: i < j < |listing| && listing[j] in parents && listing[i] in parents[listing[j]]
    }

    // What git rev-list --reverse base..head may print. Git reaches every commit but the head
    // through one of its children, so a commit is printed before some child of it; nothing else
    // is known about the order, which depends on commit dates.
    ghost predicate RevListing(base: Sha, head: Sha, listing: seq<Sha>)
      requires WellFormed() && base in parents && head in parents
    {
      && Distinct(listing)
      && (forall c :: c in listing <==> c in parents && InRange(base, head, c))
      && (forall i :: 0 <= i < |listing| && listing[i] != head ==> HasLaterChild(listing, i))
    }
  }

  // commits is the chain of single-parent commits that leads from base, exclusive, to head, inclusive.
  ghost predicate Line(g: Graph, base: Sha, head: Sha, commits: seq<Sha>)
    decreases |commits|
  {
    if commits == [] then base == head
    else
      var last := commits[|commits| - 1];
      && last == head
      && g.SingleParent(head)
      && Line(g, base, g.parents[head][0], commits[..|commits| - 1])
  }

  lemma AncestorInGraph(g: Graph, a: Sha, d: Sha)
    requires g.WellFormed() && d in g.parents && g.Ancestor(a, d)
    ensures a in g.parents
    ensures a == d || g.generation[a] < g.generation[d]
    decreases g.generation[d]
  {
    if a != d {
      var i :| 0 <= i < |g.parents[d]| && g.Ancestor(a, g.parents[d][i]);
      AncestorInGraph(g, a, g.parents[d][i]);
    }
  }

  lemma AncestorTransitive(g: Graph, a: Sha, b: Sha, c: Sha)
    requires g.WellFormed() && c in g.parents && b in g.parents
    requires g.Ancestor(a, b) && g.Ancestor(b, c)
    ensures g.Ancestor(a, c)
    decreases g.generation[c]
  {
    if b != c {
      var i :| 0 <= i < |g.parents[c]| && g.Ancestor(b, g.parents[c][i]);
      AncestorTransitive(g, a, b, g.parents[c][i]);
    }
  }

  lemma AncestorAntisymmetric(g: Graph, a: Sha, b: Sha)
    requires g.WellFormed() && a in g.parents && b in g.parents
    requires g.Ancestor(a, b) && g.Ancestor(b, a)
    ensures a == b
  {
    AncestorInGraph(g, a, b);
    AncestorInGraph(g, b, a);
  }

  // Through a single parent, the ancestors of a commit are itself and its parent's.
  lemma SingleParentAncestors(g: Graph, a: Sha, d: Sha)
    requires g.WellFormed() && d in g.parents && g.SingleParent(d)
    ensures g.Ancestor(a, d) <==> a == d || g.Ancestor(a, g.parents[d][0])
  {
    if g.Ancestor(a, g.parents[d][0]) {
      assert 0 <= 0 < |g.parents[d]|;
    }
  }

  lemma LineAncestor(g: Graph, base: Sha, head: Sha, commits: seq<Sha>)
    requires g.WellFormed() && head in g.parents && Line(g, base, head, commits)
    ensures base in g.parents && g.Ancestor(base, head)
    ensures forall c :: c in commits ==> c in g.parents && g.SingleParent(c)
    decreases |commits|
  {
    if commits != [] {
      var p := g.parents[head][0];
      var init := commits[..|commits| - 1];
      LineAncestor(g, base, p, init);
      SingleParentAncestors(g, base, head);
      assert commits == init + [head];
    }
  }

  // A line visits exactly the range, each commit once.
  lemma {:induction false} LineIsRange(g: Graph, base: Sha, head: Sha, commits: seq<Sha>)
    requires g.WellFormed() && head in g.parents && Line(g, base, head, commits)
    ensures base in g.parents
    ensures Distinct(commits)
    ensures forall c :: c in commits <==> c in g.parents && g.InRange(base, head, c)
    decreases |commits|
  {
    LineAncestor(g, base, head, commits);
    if commits != [] {
      var p := g.parents[head][0];
      var init := commits[..|commits| - 1];
      assert commits == init + [head];
      LineIsRange(g, base, p, init);
      if g.Ancestor(head, p) { AncestorInGraph(g, head, p); }
      if g.Ancestor(head, base) {
        LineAncestor(g, base, p, init);
        AncestorTransitive(g, head, base, p);
        AncestorInGraph(g, head, p);
      }
      assert head !in init;
      forall c ensures c in commits <==> c in g.parents && g.InRange(base, head, c) {
        SingleParentAncestors(g, c, head);
        if c in g.parents && c != head { assert c in commits <==> c in init; }
      }
    }
  }

  lemma {:induction false} LineUnique(g: Graph, base: Sha, head: Sha, x: seq<Sha>, y: seq<Sha>)
    requires g.WellFormed() && head in g.parents
    requires Line(g, base, head, x) && Line(g, base, head, y)
    ensures x == y
    decreases |x|
  {
    if x == [] || y == [] {
      if x != [] { LineNonempty(g, base, head, x); }
      if y != [] { LineNonempty(g, base, head, y); }
    } else {
      LineUnique(g, base, g.parents[head][0], x[..|x| - 1], y[..|y| - 1]);
      assert x == x[..|x| - 1] + [head] && y == y[..|y| - 1] + [head];
    }
  }

  lemma LineNonempty(g: Graph, base: Sha, head: Sha, x: seq<Sha>)
    requires g.WellFormed() && head in g.parents && Line(g, base, head, x) && x != []
    ensures base != head
  {
    LineAncestor(g, base, g.parents[head][0], x[..|x| - 1]);
    AncestorInGraph(g, base, g.parents[head][0]);
  }

  lemma {:induction false} LineConcat(g: Graph, a: Sha, b: Sha, c: Sha, x: seq<Sha>, y: seq<Sha>)
    requires Line(g, a, b, x) && Line(g, b, c, y)
    ensures Line(g, a, c, x + y)
    decreases |y|
  {
    if y == [] {
      assert x + y == x;
    } else {
      LineConcat(g, a, b, g.parents[c][0], x, y[..|y| - 1]);
      assert (x + y)[..|x + y| - 1] == x + y[..|y| - 1];
    }
  }

  // The heart of range validation: whatever order Git lists base..head in, once every listed commit
  // has a single parent the listing is the line from base to head.
  lemma {:induction false} SingleParentListingIsLine(g: Graph, base: Sha, head: Sha, listing: seq<Sha>)
    requires g.WellFormed() && base in g.parents && head in g.parents
    requires g.Ancestor(base, head)
    requires g.RevListing(base, head, listing)
    requires forall c :: c in listing ==> g.SingleParent(c)
    ensures Line(g, base, head, listing)
    decreases g.generation[head]
  {
    if base == head {
      EmptyRange(g, base, listing);
    } else {
      HeadIsLast(g, base, head, listing);
      assert listing == listing[..|listing| - 1] + [head];
      InitIsListing(g, base, head, listing[..|listing| - 1]);
      SingleParentAncestors(g, base, head);
      SingleParentListingIsLine(g, base, g.parents[head][0], listing[..|listing| - 1]);
    }
  }

  lemma EmptyRange(g: Graph, base: Sha, listing: seq<Sha>)
    requires g.WellFormed() && base in g.parents && g.RevListing(base, base, listing)
    ensures listing == []
  {
    NonemptyHasMember(listing);
  }

  lemma InitIsListing(g: Graph, base: Sha, head: Sha, init: seq<Sha>)
    requires g.WellFormed() && base in g.parents && g.SingleParent(head)
    requires g.RevListing(base, head, init + [head])
    ensures g.RevListing(base, g.parents[head][0], init)
  {
    var p := g.parents[head][0];
    DistinctInit(init, head);
    forall c ensures c in init <==> c in g.parents && g.InRange(base, p, c) {
      InitMembers(g, base, head, init, c);
    }
    forall i | 0 <= i < |init| && init[i] != p ensures g.HasLaterChild(init, i) {
      assert g.HasLaterChild(init + [head], i);
      ChildStaysLater(g, head, init, i);
    }
  }

  // A commit other than the head's parent has its later child before the head.
  lemma ChildStaysLater(g: Graph, head: Sha, init: seq<Sha>, i: nat)
    requires i < |init| && g.SingleParent(head) && init[i] != g.parents[head][0]
    requires g.HasLaterChild(init + [head], i)
    ensures g.HasLaterChild(init, i)
  {
    var listing := init + [head];
    var j :| i < j < |listing| && listing[j] in g.parents && listing[i] in g.parents[listing[j]];
    assert listing[j] != head;
    assert init[j] == listing[j];
  }

  lemma InitMembers(g: Graph, base: Sha, head: Sha, init: seq<Sha>, c: Sha)
    requires g.WellFormed() && base in g.parents && g.SingleParent(head)
    requires head !in init
    requires c in init + [head] <==> c in g.parents && g.InRange(base, head, c)
    ensures c in init <==> c in g.parents && g.InRange(base, g.parents[head][0], c)
  {
    SingleParentAncestors(g, c, head);
    if c == head && g.Ancestor(head, g.parents[head][0]) {
      AncestorInGraph(g, head, g.parents[head][0]);
    }
  }

  lemma HeadIsLast(g: Graph, base: Sha, head: Sha, listing: seq<Sha>)
    requires g.WellFormed() && base in g.parents && head in g.parents
    requires base != head && g.Ancestor(base, head)
    requires g.RevListing(base, head, listing)
    ensures listing != [] && listing[|listing| - 1] == head
  {
    if g.Ancestor(head, base) { AncestorAntisymmetric(g, head, base); }
    assert g.InRange(base, head, head);
    assert head in listing;
  }
}
