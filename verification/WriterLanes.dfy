/** Validation of the commits of one writer lane (writer_lanes.py, trusted_lane_validation.py).
    A writer branch is inert data: a commit graph with a tree of files at every commit. */
module WriterLanes {
  import opened Wrappers
  import opened Text
  import opened CommitGraph

  type Path = string

  datatype Headers = Headers(writer: string, messageId: string)

  // A file version, with what the message grammar makes of it: under the strict timestamp policy
  // for new messages, and under the source_fallback policy for historical ones.
  datatype Blob = Blob(sha: nat, size: nat, strict: Option<Headers>, historical: Option<Headers>)

  type Tree = map<Path, Blob>

  datatype Repo = Repo(graph: Graph, trees: map<Sha, Tree>) {
    // The fallback policy only relaxes the strict one, and both find the same headers.
    ghost predicate WellFormed() {
      && graph.WellFormed()
      && trees.Keys == graph.parents.Keys
      && forall c, p :: c in trees && p in trees[c] && trees[c][p].strict.Some? ==>
                          trees[c][p].historical == trees[c][p].strict
    }
  }

  datatype WriterLane = WriterLane(identity: string, writer: string)

  datatype LaneError =
    | BaseNotAncestor
    | MergeCommitForbidden
    | NoNewCommits
    | MessageGrammar(path: Path)
    | PathForbidden(path: Path)
    | NotAppendOnly(path: Path)
    | WriterMismatch(path: Path)
    | MessageIdNamespace(path: Path)
    | DuplicateNewMessageId(path: Path)

  predicate IsMessagePath(p: Path) {
    StartsWith(p, "messages/") && EndsWith(p, ".md")
  }

  function Changed(before: Tree, after: Tree): set<Path> {
    set p | p in before.Keys + after.Keys && (p !in before || p !in after || before[p] != after[p])
  }

  // diff-tree --diff-filter=A -- messages, restricted to .md files.
  function AddedMessages(before: Tree, after: Tree): set<Path> {
    set p | p in after && p !in before && IsMessagePath(p)
  }

  predicate Readable(tree: Tree) {
    forall p :: p in tree && IsMessagePath(p) ==> tree[p].historical.Some?
  }

  function IdAt(tree: Tree, p: Path): string
    requires p in tree && tree[p].historical.Some?
  {
    Fold(tree[p].historical.value.messageId)
  }

  function MessageIds(tree: Tree): set<string> {
    set p | p in tree && IsMessagePath(p) && tree[p].historical.Some? :: IdAt(tree, p)
  }

  predicate InNamespace(lane: WriterLane, messageId: string) {
    StartsWith(Fold(messageId), Fold(lane.identity) + "-")
  }

  // What one changed path must satisfy, apart from the uniqueness of its message id.
  predicate PathAdmissible(before: Tree, after: Tree, lane: WriterLane, p: Path) {
    && IsMessagePath(p)
    && p !in before
    && p in after
    && after[p].strict.Some?
    && Fold(after[p].strict.value.writer) == Fold(lane.writer)
    && InNamespace(lane, after[p].strict.value.messageId)
  }

  function NewId(after: Tree, p: Path): string
    requires p in after && after[p].strict.Some?
  {
    Fold(after[p].strict.value.messageId)
  }

  function NewIds(after: Tree, paths: set<Path>): set<string> {
    set p | p in paths && p in after && after[p].strict.Some? :: NewId(after, p)
  }

  // The message ids of the changed paths are new, and differ from one another.
  ghost predicate FreshIds(after: Tree, paths: set<Path>, seen: set<string>)
    requires forall p :: p in paths ==> p in after && after[p].strict.Some?
  {
    && (forall p :: p in paths ==> NewId(after, p) !in seen)
    && (forall p, q :: p in paths && q in paths && p != q ==> NewId(after, p) != NewId(after, q))
  }

  ghost predicate ChangeAdmissible(before: Tree, after: Tree, lane: WriterLane, reserved: set<string>) {
    && Readable(before)
    && (forall p :: p in Changed(before, after) ==> PathAdmissible(before, after, lane, p))
    && FreshIds(after, Changed(before, after), reserved + MessageIds(before))
  }

  ghost predicate CommitAdmissible(repo: Repo, c: Sha, lane: WriterLane, reserved: set<string>)
    requires repo.WellFormed()
  {
    && repo.graph.SingleParent(c)
    && ChangeAdmissible(repo.trees[repo.graph.parents[c][0]], repo.trees[c], lane, reserved)
  }

  method MessageIdsAtCommit(tree: Tree) returns (r: Result<set<string>, LaneError>)
    ensures r.Ok? <==> Readable(tree)
    ensures r.Ok? ==> r.value == MessageIds(tree)
    ensures r.Err? ==> r.error.MessageGrammar? && r.error.path in tree && tree[r.error.path].historical.None?
  {
    var paths := set p | p in tree && IsMessagePath(p);
    var done: set<Path> := {};
    var ids := {};
    while paths != {}
      invariant paths + done == set p | p in tree && IsMessagePath(p)
      invariant forall p :: p in done ==> tree[p].historical.Some?
      invariant ids == set p | p in done && tree[p].historical.Some? :: IdAt(tree, p)
      decreases paths
    {
      var path :| path in paths;
      if tree[path].historical.None? { return Err(MessageGrammar(path)); }
      ids := ids + {IdAt(tree, path)};
      paths, done := paths - {path}, done + {path};
    }
    return Ok(ids);
  }

  // One changed path of one commit, checked in the order of the guard.
  method ValidatePath(before: Tree, after: Tree, lane: WriterLane, path: Path, seen: set<string>)
    returns (r: Result<string, LaneError>)
    requires path in Changed(before, after)
    ensures r.Ok? <==> PathAdmissible(before, after, lane, path) && NewId(after, path) !in seen
    ensures r.Ok? ==> r.value == NewId(after, path)
  {
    if !IsMessagePath(path) { return Err(PathForbidden(path)); }
    if path in before { return Err(NotAppendOnly(path)); }
    if after[path].strict.None? { return Err(MessageGrammar(path)); }
    var headers := after[path].strict.value;
    if Fold(headers.writer) != Fold(lane.writer) { return Err(WriterMismatch(path)); }
    if !InNamespace(lane, headers.messageId) { return Err(MessageIdNamespace(path)); }
    if Fold(headers.messageId) in seen { return Err(DuplicateNewMessageId(path)); }
    return Ok(Fold(headers.messageId));
  }

  lemma AdmissibleExtends(before: Tree, after: Tree, lane: WriterLane, reserved: set<string>, done: set<Path>, path: Path)
    requires done <= Changed(before, after) && path in Changed(before, after) && path !in done
    ensures ChangeAdmissible(before, after, lane, reserved) ==>
              && PathAdmissible(before, after, lane, path)
              && NewId(after, path) !in reserved + MessageIds(before) + NewIds(after, done)
  {
  }

  method ValidateCommitPaths(repo: Repo, commit: Sha, lane: WriterLane, reserved: set<string>)
    returns (r: Result<(), LaneError>)
    requires repo.WellFormed() && commit in repo.trees
    ensures r.Ok? <==> CommitAdmissible(repo, commit, lane, reserved)
  {
    if |repo.graph.parents[commit]| != 1 { return Err(MergeCommitForbidden); }
    var before, after := repo.trees[repo.graph.parents[commit][0]], repo.trees[commit];
    var ids := MessageIdsAtCommit(before);
    if ids.Err? { return Err(ids.error); }
    var seen := reserved + ids.value;
    var pending := Changed(before, after);
    var done: set<Path> := {};
    while pending != {}
      invariant pending + done == Changed(before, after)
      invariant pending !! done
      invariant forall p :: p in done ==> PathAdmissible(before, after, lane, p)
      invariant FreshIds(after, done, reserved + ids.value)
      invariant seen == reserved + ids.value + NewIds(after, done)
      decreases pending
    {
      var path :| path in pending;
      var checked := ValidatePath(before, after, lane, path, seen);
      AdmissibleExtends(before, after, lane, reserved, done, path);
      if checked.Err? { return Err(checked.error); }
      seen := seen + {checked.value};
      pending, done := pending - {path}, done + {path};
    }
    return Ok(());
  }

  ghost predicate AllAdmissible(repo: Repo, commits: seq<Sha>, lane: WriterLane, reserved: set<string>)
    requires repo.WellFormed()
  {
    forall k :: 0 <= k < |commits| ==> CommitAdmissible(repo, commits[k], lane, reserved)
  }

  // What validation establishes of the range base..head that Git listed.
  ghost predicate RangeAdmissible(repo: Repo, base: Sha, head: Sha, commits: seq<Sha>, lane: WriterLane, reserved: set<string>)
    requires repo.WellFormed() && head in repo.trees
  {
    && repo.graph.Ancestor(base, head)
    && (base == head <==> commits == [])
    && AllAdmissible(repo, commits, lane, reserved)
  }

  method ValidateCommits(repo: Repo, commits: seq<Sha>, lane: WriterLane, reserved: set<string>)
    returns (r: Result<(), LaneError>)
    requires repo.WellFormed()
    requires forall c :: c in commits ==> c in repo.trees
    ensures r.Ok? <==> AllAdmissible(repo, commits, lane, reserved)
  {
    for i := 0 to |commits|
      invariant AllAdmissible(repo, commits[..i], lane, reserved)
    {
      var checked := ValidateCommitPaths(repo, commits[i], lane, reserved);
      if checked.Err? { return Err(checked.error); }
    }
    assert commits[..|commits|] == commits;
    return Ok(());
  }

  // Every commit of the unseen range, checked against the tree of its own parent. The listing is
  // whatever Git printed for base..head; it is not consulted when there is nothing to list.
  method ValidateActiveWriterRange(repo: Repo, base: Sha, head: Sha, listing: seq<Sha>, lane: WriterLane, reserved: set<string>)
    returns (r: Result<seq<Sha>, LaneError>)
    requires repo.WellFormed() && base in repo.trees && head in repo.trees
    requires repo.graph.RevListing(base, head, listing)
    ensures r.Ok? <==> RangeAdmissible(repo, base, head, listing, lane, reserved)
    ensures r.Ok? ==> r.value == listing
  {
    assert base == head ==> listing == [] by {
      if base == head { EmptyRange(repo.graph, base, listing); }
    }
    if base == head { return Ok([]); }
    if !repo.graph.Ancestor(base, head) { return Err(BaseNotAncestor); }
    if listing == [] { return Err(NoNewCommits); }
    var checked := ValidateCommits(repo, listing, lane, reserved);
    if checked.Err? { return Err(checked.error); }
    return Ok(listing);
  }

  // ---- What an admissible range does to the lane's tree ----

  ghost predicate Preserved(before: Tree, after: Tree) {
    forall p :: p in before ==> p in after && after[p] == before[p]
  }

  ghost predicate UniqueIds(tree: Tree) {
    && Readable(tree)
    && forall p, q :: p in tree && q in tree && IsMessagePath(p) && IsMessagePath(q) && p != q ==>
                        IdAt(tree, p) != IdAt(tree, q)
  }

  ghost predicate Consistent(tree: Tree) {
    forall p :: p in tree && tree[p].strict.Some? ==> tree[p].historical == tree[p].strict
  }

  // From before to after only messages of the lane appeared, under ids not used before or reserved.
  ghost predicate OnlyAppends(before: Tree, after: Tree, lane: WriterLane, reserved: set<string>) {
    && Preserved(before, after)
    && forall p :: p in after && p !in before ==>
                     && PathAdmissible(before, after, lane, p)
                     && NewId(after, p) !in reserved + MessageIds(before)
  }

  lemma ChangeOnlyAppends(before: Tree, after: Tree, lane: WriterLane, reserved: set<string>)
    requires ChangeAdmissible(before, after, lane, reserved)
    ensures OnlyAppends(before, after, lane, reserved)
  {
    forall p | p in before ensures p in after && after[p] == before[p] {
      assert p in Changed(before, after) <==> p !in after || after[p] != before[p];
    }
    forall p | p in after && p !in before
      ensures PathAdmissible(before, after, lane, p) && NewId(after, p) !in reserved + MessageIds(before)
    {
      assert p in Changed(before, after);
    }
  }

  lemma ChangeKeepsUniqueIds(before: Tree, after: Tree, lane: WriterLane, reserved: set<string>)
    requires ChangeAdmissible(before, after, lane, reserved) && Consistent(after) && UniqueIds(before)
    ensures UniqueIds(after)
  {
    ChangeOnlyAppends(before, after, lane, reserved);
    assert forall p :: p in after && p !in before ==> p in Changed(before, after);
    forall p, q | p in after && q in after && IsMessagePath(p) && IsMessagePath(q) && p != q
      ensures IdAt(after, p) != IdAt(after, q)
    {
      if p in before && q !in before { assert IdAt(before, p) in MessageIds(before); }
      if q in before && p !in before { assert IdAt(before, q) in MessageIds(before); }
    }
  }

  lemma IdsPreserved(before: Tree, after: Tree)
    requires Preserved(before, after)
    ensures MessageIds(before) <= MessageIds(after)
  {
    forall id | id in MessageIds(before) ensures id in MessageIds(after) {
      var p :| p in before && IsMessagePath(p) && before[p].historical.Some? && IdAt(before, p) == id;
      assert IdAt(after, p) == id;
    }
  }

  lemma OnlyAppendsTransitive(a: Tree, b: Tree, c: Tree, lane: WriterLane, reserved: set<string>)
    requires OnlyAppends(a, b, lane, reserved) && OnlyAppends(b, c, lane, reserved)
    ensures OnlyAppends(a, c, lane, reserved)
  {
    IdsPreserved(a, b);
  }

  // An admissible line of commits, taken as a whole, only appends messages of its lane.
  lemma {:induction false} LineOnlyAppends(repo: Repo, base: Sha, head: Sha, commits: seq<Sha>, lane: WriterLane, reserved: set<string>)
    requires repo.WellFormed() && head in repo.trees
    requires Line(repo.graph, base, head, commits) && AllAdmissible(repo, commits, lane, reserved)
    ensures base in repo.trees && OnlyAppends(repo.trees[base], repo.trees[head], lane, reserved)
    decreases |commits|
  {
    LineAncestor(repo.graph, base, head, commits);
    AncestorInGraph(repo.graph, base, head);
    if commits != [] {
      var n := |commits| - 1;
      var p := repo.graph.parents[head][0];
      assert commits[n] == head;
      assert AllAdmissible(repo, commits[..n], lane, reserved);
      LineOnlyAppends(repo, base, p, commits[..n], lane, reserved);
      assert CommitAdmissible(repo, commits[n], lane, reserved);
      ChangeOnlyAppends(repo.trees[p], repo.trees[head], lane, reserved);
      OnlyAppendsTransitive(repo.trees[base], repo.trees[p], repo.trees[head], lane, reserved);
    }
  }

  // Message ids stay unique up to case along an admissible line.
  lemma {:induction false} LineKeepsUniqueIds(repo: Repo, base: Sha, head: Sha, commits: seq<Sha>, lane: WriterLane, reserved: set<string>)
    requires repo.WellFormed() && head in repo.trees && base in repo.trees
    requires Line(repo.graph, base, head, commits) && AllAdmissible(repo, commits, lane, reserved)
    requires UniqueIds(repo.trees[base])
    ensures UniqueIds(repo.trees[head])
    decreases |commits|
  {
    if commits != [] {
      var n := |commits| - 1;
      var p := repo.graph.parents[head][0];
      assert commits[n] == head;
      assert AllAdmissible(repo, commits[..n], lane, reserved);
      LineKeepsUniqueIds(repo, base, p, commits[..n], lane, reserved);
      assert CommitAdmissible(repo, commits[n], lane, reserved);
      assert Consistent(repo.trees[head]);
      ChangeKeepsUniqueIds(repo.trees[p], repo.trees[head], lane, reserved);
    }
  }
}
