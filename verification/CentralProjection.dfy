/** Deterministic batching of the message files of a validated range (central_projection.py). */
module CentralProjection {
  import opened Wrappers
  import opened Sequences
  import opened Text
  import opened CommitGraph
  import opened WriterLanes

  const DEFAULT_MAX_FILE_BYTES: int := 512 * 1024

  datatype ProjectionFile = ProjectionFile(path: Path, sourceCommit: Sha, blob: Blob)

  datatype ProjectionError =
    | InvalidLimit
    | MergeCommitForbidden
    | PathRepeated(path: Path)
    | FileTooLarge(path: Path)
    | FileExceedsBatchLimit(path: Path)

  // ---- Collecting the added messages of a range ----

  function FilesAt(paths: seq<Path>, commit: Sha, tree: Tree): (files: seq<ProjectionFile>)
    requires forall i :: 0 <= i < |paths| ==> paths[i] in tree
  {
    seq(|paths|, i requires 0 <= i < |paths| => ProjectionFile(paths[i], commit, tree[paths[i]]))
  }

  function AddedAt(repo: Repo, c: Sha): set<Path>
    requires repo.WellFormed() && repo.graph.SingleParent(c)
  {
    AddedMessages(repo.trees[repo.graph.parents[c][0]], repo.trees[c])
  }

  function CommitFiles(repo: Repo, c: Sha): (files: seq<ProjectionFile>)
    requires repo.WellFormed() && repo.graph.SingleParent(c)
  {
    var paths := Sorted(AddedAt(repo, c));
    assert forall i :: 0 <= i < |paths| ==> paths[i] in paths;
    FilesAt(paths, c, repo.trees[c])
  }

  // The files of a range: commit by commit, sorted by path within a commit.
  function Collected(repo: Repo, commits: seq<Sha>): (files: seq<ProjectionFile>)
    requires repo.WellFormed() && forall c :: c in commits ==> repo.graph.SingleParent(c)
  {
    if commits == [] then []
    else
      var last := commits[|commits| - 1];
      Collected(repo, commits[..|commits| - 1]) + CommitFiles(repo, last)
  }

  function Paths(files: seq<ProjectionFile>): (paths: seq<Path>) {
    seq(|files|, i requires 0 <= i < |files| => files[i].path)
  }

  // A range can be projected when nothing repeats a path and no file is too large.
  ghost predicate Collectable(repo: Repo, commits: seq<Sha>, maxFileBytes: int)
    requires repo.WellFormed()
  {
    && (forall c :: c in commits ==> repo.graph.SingleParent(c))
    && Acceptable(Collected(repo, commits), maxFileBytes)
  }

  ghost predicate Acceptable(files: seq<ProjectionFile>, maxFileBytes: int) {
    && Distinct(Paths(files))
    && forall f :: f in files ==> f.blob.size <= maxFileBytes
  }

  lemma AcceptablePrefix(part: seq<ProjectionFile>, files: seq<ProjectionFile>, maxFileBytes: int)
    requires part <= files && Acceptable(files, maxFileBytes)
    ensures Acceptable(part, maxFileBytes)
  {
    forall i, j | 0 <= i < j < |part| ensures Paths(part)[i] != Paths(part)[j] {
      assert Paths(files)[i] != Paths(files)[j];
    }
  }

  lemma {:induction false} CollectedPrefix(repo: Repo, commits: seq<Sha>, i: nat)
    requires repo.WellFormed() && forall c :: c in commits ==> repo.graph.SingleParent(c)
    requires i <= |commits|
    ensures Collected(repo, commits[..i]) <= Collected(repo, commits)
    decreases |commits|
  {
    if i == |commits| {
      assert commits[..i] == commits;
    } else {
      CollectedPrefix(repo, commits[..|commits| - 1], i);
      assert commits[..|commits| - 1][..i] == commits[..i];
    }
  }

  // Whatever has been collected up to and including commit i is a prefix of the whole collection.
  lemma PartAcceptable(repo: Repo, commits: seq<Sha>, i: nat, maxFileBytes: int)
    requires repo.WellFormed() && i < |commits| && repo.graph.SingleParent(commits[i])
    requires forall c :: c in commits[..i] ==> repo.graph.SingleParent(c)
    ensures Collectable(repo, commits, maxFileBytes) ==>
              Acceptable(Collected(repo, commits[..i]) + CommitFiles(repo, commits[i]), maxFileBytes)
  {
    if Collectable(repo, commits, maxFileBytes) {
      assert commits[..i + 1][..i] == commits[..i];
      CollectedPrefix(repo, commits, i + 1);
      AcceptablePrefix(Collected(repo, commits[..i + 1]), Collected(repo, commits), maxFileBytes);
    }
  }

  lemma Repeats(files: seq<ProjectionFile>, f: ProjectionFile, maxFileBytes: int)
    requires Acceptable(files, maxFileBytes)
    ensures Acceptable(files + [f], maxFileBytes) <==> f.path !in PathSet(files) && f.blob.size <= maxFileBytes
  {
    var more := files + [f];
    if f.path in PathSet(files) {
      var i :| 0 <= i < |files| && files[i].path == f.path;
      assert Paths(more)[i] == Paths(more)[|files|];
    } else {
      forall i, j | 0 <= i < j < |more| ensures Paths(more)[i] != Paths(more)[j] {
        assert Paths(files)[i] == Paths(more)[i];
        if j < |files| { assert Paths(files)[j] == Paths(more)[j]; }
      }
    }
    assert more[|files|] == f;
  }

  function PathSet(files: seq<ProjectionFile>): set<Path> {
    set f | f in files :: f.path
  }

  // The inner loop of the collection: one commit's sorted paths, appended to what was collected before.
  method CollectCommit(output: seq<ProjectionFile>, seen: set<Path>, paths: seq<Path>, commit: Sha, tree: Tree, maxFileBytes: int)
    returns (r: Result<(seq<ProjectionFile>, set<Path>), ProjectionError>)
    requires Acceptable(output, maxFileBytes) && seen == PathSet(output)
    requires forall i :: 0 <= i < |paths| ==> paths[i] in tree
    ensures r.Ok? <==> Acceptable(output + FilesAt(paths, commit, tree), maxFileBytes)
    ensures r.Ok? ==> r.value.0 == output + FilesAt(paths, commit, tree) && r.value.1 == PathSet(r.value.0)
  {
    var files, known := output, seen;
    for k := 0 to |paths|
      invariant files == output + FilesAt(paths[..k], commit, tree)
      invariant Acceptable(files, maxFileBytes)
      invariant known == PathSet(files)
    {
      var path := paths[k];
      var file := ProjectionFile(path, commit, tree[path]);
      Repeats(files, file, maxFileBytes);
      assert files + [file] == output + FilesAt(paths[..k + 1], commit, tree);
      PrefixRejects(files + [file], output + FilesAt(paths, commit, tree), maxFileBytes);
      if path in known { return Err(PathRepeated(path)); }
      known := known + {path};
      if file.blob.size > maxFileBytes { return Err(FileTooLarge(path)); }
      files := files + [file];
    }
    assert paths[..|paths|] == paths;
    return Ok((files, known));
  }

  lemma PrefixRejects(part: seq<ProjectionFile>, files: seq<ProjectionFile>, maxFileBytes: int)
    requires part <= files
    ensures Acceptable(files, maxFileBytes) ==> Acceptable(part, maxFileBytes)
  {
    if Acceptable(files, maxFileBytes) { AcceptablePrefix(part, files, maxFileBytes); }
  }

  method CollectProjectionFiles(repo: Repo, commits: seq<Sha>, maxFileBytes: int)
    returns (r: Result<seq<ProjectionFile>, ProjectionError>)
    requires repo.WellFormed() && forall c :: c in commits ==> c in repo.trees
    ensures r.Ok? <==> maxFileBytes > 0 && Collectable(repo, commits, maxFileBytes)
    ensures r.Ok? ==> r.value == Collected(repo, commits)
  {
    if maxFileBytes <= 0 { return Err(InvalidLimit); }
    var seen: set<Path> := {};
    var output: seq<ProjectionFile> := [];
    for i := 0 to |commits|
      invariant forall c :: c in commits[..i] ==> repo.graph.SingleParent(c)
      invariant output == Collected(repo, commits[..i])
      invariant Acceptable(output, maxFileBytes)
      invariant seen == PathSet(output)
    {
      var commit := commits[i];
      assert commit in commits;
      if |repo.graph.parents[commit]| != 1 { return Err(ProjectionError.MergeCommitForbidden); }
      var paths := Sorted(AddedAt(repo, commit));
      assert forall k :: 0 <= k < |paths| ==> paths[k] in paths;
      PartAcceptable(repo, commits, i, maxFileBytes);
      var extended := CollectCommit(output, seen, paths, commit, repo.trees[commit], maxFileBytes);
      if extended.Err? { return Err(extended.error); }
      output, seen := extended.value.0, extended.value.1;
      assert commits[..i + 1][..i] == commits[..i];
    }
    assert commits[..|commits|] == commits;
    return Ok(output);
  }

  // ---- What is collected from an admissible line ----

  lemma DistinctConcat(a: seq<Path>, b: seq<Path>)
    requires Distinct(a) && Distinct(b) && forall p :: p in a ==> p !in b
    ensures Distinct(a + b)
  {
    forall i, j | 0 <= i < j < |a + b| ensures (a + b)[i] != (a + b)[j] {
      if i < |a| <= j { assert a[i] in a && b[j - |a|] in b; }
    }
  }

  lemma CommitFilesFacts(repo: Repo, c: Sha)
    requires repo.WellFormed() && repo.graph.SingleParent(c)
    ensures Paths(CommitFiles(repo, c)) == Sorted(AddedAt(repo, c))
    ensures Distinct(Paths(CommitFiles(repo, c)))
    ensures PathSet(CommitFiles(repo, c)) == AddedAt(repo, c)
    ensures forall f :: f in CommitFiles(repo, c) ==> f.path in repo.trees[c] && f.blob == repo.trees[c][f.path]
  {
    var files := CommitFiles(repo, c);
    var paths := Sorted(AddedAt(repo, c));
    assert Paths(files) == paths;
    assert forall i :: 0 <= i < |paths| ==> paths[i] in paths;
    forall f | f in files ensures f.path in repo.trees[c] && f.blob == repo.trees[c][f.path] {
      var k :| 0 <= k < |files| && files[k] == f;
    }
    forall p ensures p in PathSet(files) <==> p in AddedAt(repo, c) {
      if p in AddedAt(repo, c) {
        var k :| 0 <= k < |paths| && paths[k] == p;
        assert files[k].path == p && files[k] in files;
      }
      if p in PathSet(files) {
        var k :| 0 <= k < |files| && files[k].path == p;
        assert paths[k] in paths;
      }
    }
  }

  // The files of an admissible line are exactly the messages its head has and its base has not, each
  // once and as the head has it. In particular the collection never repeats a path.
  lemma {:induction false} CollectedIsTreeDifference(repo: Repo, base: Sha, head: Sha, commits: seq<Sha>, lane: WriterLane, reserved: set<string>)
    requires repo.WellFormed() && head in repo.trees && base in repo.trees
    requires Line(repo.graph, base, head, commits) && AllAdmissible(repo, commits, lane, reserved)
    ensures forall c :: c in commits ==> repo.graph.SingleParent(c)
    ensures Distinct(Paths(Collected(repo, commits)))
    ensures PathSet(Collected(repo, commits)) == AddedMessages(repo.trees[base], repo.trees[head])
    ensures forall f :: f in Collected(repo, commits) ==> f.path in repo.trees[head] && f.blob == repo.trees[head][f.path]
    decreases |commits|
  {
    LineAncestor(repo.graph, base, head, commits);
    if commits != [] {
      var n := |commits| - 1;
      var p := repo.graph.parents[head][0];
      var init := commits[..n];
      assert commits[n] == head;
      assert AllAdmissible(repo, init, lane, reserved);
      CollectedIsTreeDifference(repo, base, p, init, lane, reserved);
      LineOnlyAppends(repo, base, p, init, lane, reserved);
      assert CommitAdmissible(repo, commits[n], lane, reserved);
      ChangeOnlyAppends(repo.trees[p], repo.trees[head], lane, reserved);
      CommitFilesFacts(repo, head);
      assert AddedAt(repo, head) == AddedMessages(repo.trees[p], repo.trees[head]);
      JoinDistinct(Collected(repo, init), CommitFiles(repo, head));
      AddedSplits(repo.trees[base], repo.trees[p], repo.trees[head]);
    }
  }

  lemma AddedSplits(a: Tree, b: Tree, c: Tree)
    requires Preserved(a, b) && Preserved(b, c)
    ensures AddedMessages(a, c) == AddedMessages(a, b) + AddedMessages(b, c)
  {
  }

  lemma JoinDistinct(a: seq<ProjectionFile>, b: seq<ProjectionFile>)
    requires Distinct(Paths(a)) && Distinct(Paths(b)) && PathSet(a) !! PathSet(b)
    ensures Distinct(Paths(a + b)) && PathSet(a + b) == PathSet(a) + PathSet(b)
  {
    assert Paths(a + b) == Paths(a) + Paths(b);
    forall q | q in Paths(a) ensures q !in Paths(b) {
      PathsAndSet(a, q);
      PathsAndSet(b, q);
    }
    DistinctConcat(Paths(a), Paths(b));
  }

  lemma PathsAndSet(files: seq<ProjectionFile>, q: Path)
    ensures q in Paths(files) <==> q in PathSet(files)
  {
    if q in PathSet(files) {
      var k :| 0 <= k < |files| && files[k].path == q;
      assert Paths(files)[k] == q;
    }
  }

  lemma {:induction false} CollectedConcat(repo: Repo, x: seq<Sha>, y: seq<Sha>)
    requires repo.WellFormed() && (forall c :: c in x ==> repo.graph.SingleParent(c)) && (forall c :: c in y ==> repo.graph.SingleParent(c))
    ensures forall c :: c in x + y ==> repo.graph.SingleParent(c)
    ensures Collected(repo, x + y) == Collected(repo, x) + Collected(repo, y)
    decreases |y|
  {
    hide CommitFiles;
    if y == [] {
      assert x + y == x;
    } else {
      CollectedConcat(repo, x, y[..|y| - 1]);
      assert (x + y)[..|x + y| - 1] == x + y[..|y| - 1];
    }
  }
}
