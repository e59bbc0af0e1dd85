/** The dependency graph of assignments (workflow.py): an edge is accepted exactly when the graph stays without
    cycles, by a search with a stack. */
module Workflow {
  import opened Wrappers
  import MG = MessageGrammar

  // predecessors[a] is what a waits for.
  type Edges = map<string, set<string>>

  predicate Closed(edges: Edges) {
    forall a, p :: a in edges && p in edges[a] ==> p in edges
  }

  predicate Edge(edges: Edges, p: string, s: string) {
    s in edges && p in edges[s]
  }

  // Each step of the path goes from an assignment to one that waits for it.
  predicate IsPath(edges: Edges, path: seq<string>) {
    path != [] && forall i :: 0 < i < |path| ==> Edge(edges, path[i - 1], path[i])
  }

  ghost predicate PathBetween(edges: Edges, path: seq<string>, a: string, b: string) {
    IsPath(edges, path) && path[0] == a && path[|path| - 1] == b
  }

  ghost predicate Reaches(edges: Edges, a: string, b: string) {
    exists path :: PathBetween(edges, path, a, b)
  }

  ghost predicate IsCycle(edges: Edges, path: seq<string>) {
    IsPath(edges, path) && |path| > 1 && path[0] == path[|path| - 1]
  }

  ghost predicate Acyclic(edges: Edges) {
    forall path :: !IsCycle(edges, path)
  }

  lemma ReachesSelf(edges: Edges, a: string)
    ensures Reaches(edges, a, a)
  {
    assert PathBetween(edges, [a], a, a);
  }

  lemma ReachesStep(edges: Edges, a: string, b: string, c: string)
    requires Reaches(edges, a, b) && Edge(edges, b, c)
    ensures Reaches(edges, a, c)
  {
    var path :| PathBetween(edges, path, a, b);
    assert PathBetween(edges, path + [c], a, c);
  }

  // What a set that is closed under edges holds, it holds for good.
  lemma {:induction false} ClosedSetHoldsPath(edges: Edges, seen: set<string>, path: seq<string>)
    requires IsPath(edges, path) && path[0] in seen
    requires forall p, s :: p in seen && Edge(edges, p, s) ==> s in seen
    ensures path[|path| - 1] in seen
    decreases |path|
  {
    if |path| > 1 {
      assert Edge(edges, path[0], path[1]);
      assert forall i :: 0 < i < |path[1..]| ==> path[1..][i - 1] == path[i] && path[1..][i] == path[i + 1];
      assert IsPath(edges, path[1..]) by {
        forall i | 0 < i < |path[1..]| ensures Edge(edges, path[1..][i - 1], path[1..][i]) { assert Edge(edges, path[i], path[i + 1]); }
      }
      ClosedSetHoldsPath(edges, seen, path[1..]);
    }
  }

  function WithEdge(edges: Edges, p: string, s: string): Edges
    requires s in edges
  {
    edges[s := edges[s] + {p}]
  }

  // ---- Without cycles there is an order, and the other way round ----

  ghost predicate RankedBy(edges: Edges, rank: map<string, nat>) {
    && edges.Keys <= rank.Keys
    && forall p, s :: Edge(edges, p, s) ==> p in rank && rank[p] < rank[s]
  }

  ghost predicate Ranked(edges: Edges) {
    exists rank :: RankedBy(edges, rank)
  }

  lemma {:induction false} RankGrowsAlong(edges: Edges, rank: map<string, nat>, path: seq<string>)
    requires RankedBy(edges, rank) && IsPath(edges, path) && |path| > 1
    ensures path[0] in rank && path[|path| - 1] in rank && rank[path[0]] < rank[path[|path| - 1]]
    decreases |path|
  {
    var n := |path|;
    assert Edge(edges, path[n - 2], path[n - 1]);
    if n > 2 {
      var init := path[..n - 1];
      assert IsPath(edges, init) by {
        forall i | 0 < i < |init| ensures Edge(edges, init[i - 1], init[i]) { assert Edge(edges, path[i - 1], path[i]); }
      }
      RankGrowsAlong(edges, rank, init);
    }
  }

  lemma RankedIsAcyclic(edges: Edges)
    requires Ranked(edges)
    ensures Acyclic(edges)
  {
    var rank :| RankedBy(edges, rank);
    forall path
      ensures !IsCycle(edges, path)
    {
      if IsPath(edges, path) && |path| > 1 { RankGrowsAlong(edges, rank, path); }
    }
  }

  // An edge back to the start of a path closes a cycle.
  lemma BackEdgeClosesCycle(edges: Edges, p: string, s: string)
    requires Edge(edges, p, s) && Reaches(edges, s, p)
    ensures !Acyclic(edges)
  {
    var path :| PathBetween(edges, path, s, p);
    var cycle := path + [s];
    assert IsPath(edges, cycle) by {
      forall i | 0 < i < |cycle|
        ensures Edge(edges, cycle[i - 1], cycle[i])
      {
        if i < |path| { assert Edge(edges, path[i - 1], path[i]); }
      }
    }
    assert IsCycle(edges, cycle);
  }

  // What leads to the assignment, and the assignment itself.
  ghost function Above(edges: Edges, a: string): set<string> {
    set b | b in edges && Reaches(edges, b, a)
  }

  lemma AboveGrows(edges: Edges, p: string, s: string)
    requires Closed(edges) && Acyclic(edges) && Edge(edges, p, s)
    ensures |Above(edges, p)| < |Above(edges, s)|
  {
    hide Reaches;
    hide Acyclic;
    forall b | b in Above(edges, p)
      ensures b in Above(edges, s)
    {
      ReachesStep(edges, b, p, s);
    }
    ReachesSelf(edges, s);
    if s in Above(edges, p) { BackEdgeClosesCycle(edges, p, s); }
    SmallerSubset(Above(edges, p), Above(edges, s), s);
  }

  lemma SmallerSubset(a: set<string>, b: set<string>, x: string)
    requires a <= b && x in b && x !in a
    ensures |a| < |b|
  {
    SubsetSize(a, b - {x});
  }

  lemma {:induction false} SubsetSize(a: set<string>, b: set<string>)
    requires a <= b
    ensures |a| <= |b|
  {
    if a != {} {
      var x :| x in a;
      SubsetSize(a - {x}, b - {x});
    }
  }

  // Every finite graph without cycles has an order: by how many assignments lead to each.
  lemma AcyclicIsRanked(edges: Edges)
    requires Closed(edges) && Acyclic(edges)
    ensures Ranked(edges)
  {
    hide Acyclic;
    hide Above;
    var rank := map a | a in edges :: |Above(edges, a)|;
    forall p, s | Edge(edges, p, s)
      ensures p in rank && rank[p] < rank[s]
    {
      AboveGrows(edges, p, s);
    }
    assert RankedBy(edges, rank);
  }

  // What the successor reaches moves up past the predecessor.
  lemma EdgeKeepsRanked(edges: Edges, p: string, s: string)
    requires Ranked(edges) && Closed(edges) && p in edges && s in edges && !Reaches(edges, s, p)
    ensures Ranked(WithEdge(edges, p, s))
  {
    var rank :| RankedBy(edges, rank);
    var lifted := map a | a in edges :: if Reaches(edges, s, a) then rank[a] + rank[p] + 1 else rank[a];
    var more := WithEdge(edges, p, s);
    ReachesSelf(edges, s);
    forall a, b | Edge(more, a, b)
      ensures a in lifted && lifted[a] < lifted[b]
    {
      if Edge(edges, a, b) {
        if Reaches(edges, s, a) { ReachesStep(edges, s, a, b); }
      }
    }
    assert RankedBy(more, lifted);
  }

  lemma PathAlsoInMore(edges: Edges, p: string, s: string, path: seq<string>)
    requires s in edges && IsPath(edges, path)
    ensures IsPath(WithEdge(edges, p, s), path)
  {
    forall i | 0 < i < |path|
      ensures Edge(WithEdge(edges, p, s), path[i - 1], path[i])
    {
      assert Edge(edges, path[i - 1], path[i]);
    }
  }

  lemma EdgesKept(edges: Edges, p: string, s: string)
    requires p in edges && s in edges && Closed(edges)
    ensures Edge(WithEdge(edges, p, s), p, s) && Closed(WithEdge(edges, p, s))
    ensures Reaches(edges, s, p) ==> Reaches(WithEdge(edges, p, s), s, p)
  {
    if Reaches(edges, s, p) {
      var path :| PathBetween(edges, path, s, p);
      PathAlsoInMore(edges, p, s, path);
      assert PathBetween(WithEdge(edges, p, s), path, s, p);
    }
  }

  /** In a graph without cycles an edge may be added exactly when its end does not already lead to its start. */
  lemma EdgeAcceptable(edges: Edges, p: string, s: string)
    requires Acyclic(edges) && Closed(edges) && p in edges && s in edges
    ensures Acyclic(WithEdge(edges, p, s)) <==> !Reaches(edges, s, p)
    ensures Closed(WithEdge(edges, p, s))
  {
    hide Acyclic;
    hide Reaches;
    hide Ranked;
    EdgesKept(edges, p, s);
    if Reaches(edges, s, p) {
      BackEdgeClosesCycle(WithEdge(edges, p, s), p, s);
    } else {
      AcyclicIsRanked(edges);
      EdgeKeepsRanked(edges, p, s);
      RankedIsAcyclic(WithEdge(edges, p, s));
    }
  }

  // Following unfinished predecessors ends at an assignment that waits for nothing unfinished.
  lemma {:induction false} ReadyBelow(edges: Edges, rank: map<string, nat>, complete: set<string>, a: string) returns (r: string)
    requires RankedBy(edges, rank) && Closed(edges) && a in edges && a !in complete
    ensures r in edges && r !in complete && edges[r] <= complete
    decreases rank[a]
  {
    if edges[a] <= complete {
      r := a;
    } else {
      var p :| p in edges[a] && p !in complete;
      assert Edge(edges, p, a);
      r := ReadyBelow(edges, rank, complete, p);
    }
  }

  /** In every graph without cycles, if some assignment is incomplete then some incomplete assignment is ready. */
  lemma SomeIncompleteIsReady(edges: Edges, complete: set<string>)
    requires Acyclic(edges) && Closed(edges) && exists a :: a in edges && a !in complete
    ensures exists a :: a in edges && a !in complete && edges[a] <= complete
  {
    AcyclicIsRanked(edges);
    var rank :| RankedBy(edges, rank);
    var a :| a in edges && a !in complete;
    var r := ReadyBelow(edges, rank, complete, a);
  }

  // ---- The graph object ----

  class DependencyGraph {
    var complete: set<string>
    var predecessors: Edges
    var protectedAuthority: set<string>

    // The keys of predecessors are the assignments.
    ghost predicate Valid()
      reads this
    {
      Closed(predecessors) && Acyclic(predecessors) && complete <= predecessors.Keys && protectedAuthority <= predecessors.Keys
    }

    constructor ()
      ensures Valid() && predecessors == map[] && complete == {}
    {
      complete, predecessors, protectedAuthority := {}, map[], {};
      new;
      assert RankedBy(predecessors, map[]);
      RankedIsAcyclic(predecessors);
    }

    // _assignment_id and _require: a known assignment by its stripped name.
    function Known(name: string): Result<string, string>
      reads this
    {
      var id := MG.Strip(name);
      if id == "" then Err("ASSIGNMENT_ID_REQUIRED") else if id !in predecessors then Err("UNKNOWN_ASSIGNMENT") else Ok(id)
    }

    method AddAssignment(name: string, isProtected: bool) returns (r: Result<string, string>)
      requires Valid()
      modifies this
      ensures Valid() && complete == old(complete)
      ensures r == (var id := MG.Strip(name);
                    if id == "" then Err("ASSIGNMENT_ID_REQUIRED") else if id in old(predecessors) then Err("ASSIGNMENT_COLLISION") else Ok(id))
      ensures predecessors == if r.Ok? then old(predecessors)[r.value := {}] else old(predecessors)
    {
      var id := MG.Strip(name);
      if id == "" { return Err("ASSIGNMENT_ID_REQUIRED"); }
      if id in predecessors { return Err("ASSIGNMENT_COLLISION"); }
      NothingWaitsForUnknown(predecessors, id);
      predecessors := predecessors[id := {}];
      if isProtected { protectedAuthority := protectedAuthority + {id}; }
      r := Ok(id);
    }

    method ReverseEdges() returns (reverse: map<string, set<string>>)
      requires Valid()
      ensures reverse.Keys == predecessors.Keys
      ensures forall p, s :: p in reverse ==> (s in reverse[p] <==> Edge(predecessors, p, s))
    {
      reverse := map a | a in predecessors :: {};
      var left := predecessors.Keys;
      while left != {}
        invariant left <= predecessors.Keys && reverse.Keys == predecessors.Keys
        invariant forall p, s :: p in reverse ==> (s in reverse[p] <==> s !in left && Edge(predecessors, p, s))
        decreases |left|
      {
        var s :| s in left;
        reverse := AddToAll(reverse, predecessors[s], s);
        left := left - {s};
      }
    }

    /** _reachable: the search with a stack finds the target exactly if a path leads to it. */
    method Reachable(start: string, target: string) returns (found: bool)
      requires Valid() && start in predecessors
      ensures found <==> Reaches(predecessors, start, target)
    {
      hide Reaches;
      hide Acyclic;
      var reverse := ReverseEdges();
      var stack := [start];
      var seen: set<string> := {};
      ReachesSelf(predecessors, start);
      while stack != []
        invariant forall x :: x in stack ==> x in predecessors && Reaches(predecessors, start, x)
        invariant seen <= predecessors.Keys && target !in seen
        invariant start in seen || start in stack
        invariant forall x, y :: x in seen && Edge(predecessors, x, y) ==> y in seen || y in stack
        decreases |predecessors.Keys - seen|, |stack|
      {
        var current, rest := stack[|stack| - 1], stack[..|stack| - 1];
        assert stack == rest + [current];
        stack := rest;
        if current == target { return true; }
        if current !in seen {
          ghost var before := seen;
          seen := seen + {current};
          assert predecessors.Keys - seen < predecessors.Keys - before;
          stack := PushAll(stack, reverse[current]);
          forall x | x in reverse[current]
            ensures x in predecessors && Reaches(predecessors, start, x)
          {
            ReachesStep(predecessors, start, current, x);
          }
        }
      }
      found := false;
      SeenIsAll(predecessors, seen, start, target);
    }

    /** add_edge accepts an edge between known assignments exactly if the graph stays without cycles. */
    method AddEdge(predecessor: string, successor: string) returns (r: Result<(), string>)
      requires Valid()
      modifies this`predecessors
      ensures Valid()
      ensures Known(predecessor).Err? || Known(successor).Err? ==> r.Err? && r.error != "DEPENDENCY_CYCLE"
      ensures old(Known(predecessor)).Ok? && old(Known(successor)).Ok? ==>
                (r.Ok? <==> Acyclic(WithEdge(old(predecessors), old(Known(predecessor)).value, old(Known(successor)).value)))
                && (r.Err? ==> r.error == "DEPENDENCY_CYCLE")
      ensures r.Err? ==> predecessors == old(predecessors)
      ensures r.Ok? ==> old(Known(predecessor)).Ok? && old(Known(successor)).Ok?
                        && predecessors == WithEdge(old(predecessors), old(Known(predecessor)).value, old(Known(successor)).value)
    {
      var p := Known(predecessor);
      if p.Err? { return Err(p.error); }
      var s := Known(successor);
      if s.Err? { return Err(s.error); }
      EdgeAcceptable(predecessors, p.value, s.value);
      ReachesSelf(predecessors, p.value);
      if p.value == s.value { return Err("DEPENDENCY_CYCLE"); }
      var cycle := Reachable(s.value, p.value);
      if cycle { return Err("DEPENDENCY_CYCLE"); }
      predecessors := predecessors[s.value := predecessors[s.value] + {p.value}];
      r := Ok(());
    }

    method Complete(name: string) returns (r: Result<string, string>)
      requires Valid()
      modifies this`complete
      ensures Valid() && r == Known(name) && complete == old(complete) + if r.Ok? then {r.value} else {}
    {
      r := Known(name);
      if r.Ok? { complete := complete + {r.value}; }
    }

    method Ready(name: string) returns (r: Result<bool, string>)
      requires Valid()
      ensures r.Err? <==> Known(name).Err?
      ensures r.Ok? ==> (r.value <==> forall p :: Edge(predecessors, p, Known(name).value) ==> p in complete)
    {
      var id := Known(name);
      if id.Err? { return Err(id.error); }
      r := Ok(predecessors[id.value] <= complete);
    }
  }

  lemma NothingWaitsForUnknown(edges: Edges, id: string)
    requires Acyclic(edges) && Closed(edges) && id !in edges
    ensures Acyclic(edges[id := {}]) && Closed(edges[id := {}])
  {
    AcyclicIsRanked(edges);
    var rank :| RankedBy(edges, rank);
    var more, lifted := edges[id := {}], rank[id := 0];
    forall p, s | Edge(more, p, s)
      ensures p in lifted && lifted[p] < lifted[s]
    {
      assert Edge(edges, p, s);
    }
    assert RankedBy(more, lifted);
    RankedIsAcyclic(more);
  }

  // What the search has seen is all that the start leads to.
  lemma SeenIsAll(edges: Edges, seen: set<string>, start: string, target: string)
    requires start in seen && target !in seen
    requires forall x, y :: x in seen && Edge(edges, x, y) ==> y in seen
    ensures !Reaches(edges, start, target)
  {
    forall path
      ensures !PathBetween(edges, path, start, target)
    {
      if IsPath(edges, path) && path[0] in seen { ClosedSetHoldsPath(edges, seen, path); }
    }
  }

  // The inner loop: s joins the successors of each of its predecessors.
  method AddToAll(reverse: map<string, set<string>>, waits: set<string>, s: string) returns (r: map<string, set<string>>)
    requires waits <= reverse.Keys
    ensures r.Keys == reverse.Keys
    ensures forall p, x :: p in reverse ==> (x in r[p] <==> x in reverse[p] || (x == s && p in waits))
  {
    r := reverse;
    var left := waits;
    while left != {}
      invariant left <= waits && r.Keys == reverse.Keys
      invariant forall p, x :: p in reverse ==> (x in r[p] <==> x in reverse[p] || (x == s && p in waits && p !in left))
      decreases |left|
    {
      var p :| p in left;
      r := r[p := r[p] + {s}];
      left := left - {p};
    }
  }

  // list.extend of a set: its elements in some order.
  method PushAll(stack: seq<string>, more: set<string>) returns (r: seq<string>)
    ensures forall x :: x in r <==> x in stack || x in more
  {
    r := stack;
    var left := more;
    while left != {}
      invariant left <= more
      invariant forall x :: x in r <==> x in stack || (x in more && x !in left)
      decreases |left|
    {
      var x :| x in left;
      r := r + [x];
      left := left - {x};
    }
  }
}
