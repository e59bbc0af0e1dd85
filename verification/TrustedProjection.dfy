/** Projectors over one commit graph: target derivation (trusted_reconciler.py) and the worker loop
    that joins derivation, validation, claim and finalization (radar_trusted_project.py), as steps
    that any number of workers interleave while branches move arbitrarily. */
module TrustedProjection {
  import opened Wrappers
  import opened Sequences
  import opened CommitGraph
  import opened WriterLanes
  import opened CentralProjection
  import opened ProjectionJournal

  datatype Disposition = Noop | Forward | StaleEvent | DivergedHistory

  datatype Target = Target(projected: Option<Sha>, base: Sha, observed: Sha, commits: seq<Sha>,
                           disposition: Disposition, bootstrap: bool)

  // derive_target, once the lane, its activation anchor, the observed branch head and the cursor are
  // known. listed is what Git prints for the range from the base to the observed head.
  function DeriveTarget(g: Graph, anchor: Sha, projected: Option<Sha>, observed: Sha, listed: seq<Sha>): (t: Target)
    requires g.WellFormed() && observed in g.parents
    requires projected.Some? ==> projected.value in g.parents
    ensures t.projected == projected && t.observed == observed
    ensures t.base == if projected.Some? then projected.value else anchor
  {
    var base := if projected.Some? then projected.value else anchor;
    if !g.Ancestor(anchor, observed) then Target(projected, base, observed, [], DivergedHistory, projected.None?)
    else if projected.None? then Target(None, anchor, observed, listed, Forward, true)
    else if projected.value == observed then Target(projected, base, observed, [], Noop, false)
    else if !g.Ancestor(anchor, projected.value) then Target(projected, base, observed, [], DivergedHistory, false)
    else if g.Ancestor(projected.value, observed) then Target(projected, base, observed, listed, Forward, false)
    else if g.Ancestor(observed, projected.value) then Target(projected, base, observed, [], StaleEvent, false)
    else Target(projected, base, observed, [], DivergedHistory, false)
  }

  // The dispositions in terms of ancestry alone. Forward is the only one that starts work.
  lemma DispositionMeaning(g: Graph, anchor: Sha, projected: Option<Sha>, observed: Sha, listed: seq<Sha>)
    requires g.WellFormed() && observed in g.parents
    requires projected.Some? ==> projected.value in g.parents
    ensures var d := DeriveTarget(g, anchor, projected, observed, listed).disposition;
            && (d == Forward <==> g.Ancestor(anchor, observed)
                                  && (projected.Some? ==> projected.value != observed
                                                          && g.Ancestor(anchor, projected.value)
                                                          && g.Ancestor(projected.value, observed)))
            && (d == Noop <==> projected == Some(observed) && g.Ancestor(anchor, observed))
            && (d == StaleEvent <==> projected.Some? && projected.value != observed
                                     && g.Ancestor(anchor, observed) && g.Ancestor(observed, projected.value))
  {
    if projected.Some? && g.Ancestor(anchor, observed) && g.Ancestor(observed, projected.value) {
      AncestorTransitive(g, anchor, observed, projected.value);
      if g.Ancestor(projected.value, observed) { AncestorAntisymmetric(g, observed, projected.value); }
    }
  }

  // ---- Workers, step by step ----

  const CLAIM_LEASE_MS := 15 * 60 * 1000

  // What does not change while projectors run: the commit graph with its trees, and for every lane its
  // writer, its activation anchor and the message ids reserved by its history.
  datatype World = World(repo: Repo, writers: map<Lane, WriterLane>, anchors: map<Lane, Sha>,
                         reserved: map<Lane, set<string>>, maxFileBytes: int) {
    ghost predicate WellFormed() {
      && repo.WellFormed()
      && writers.Keys == anchors.Keys == reserved.Keys
      && forall lane :: lane in anchors ==> anchors[lane] in repo.trees
    }

    function Start(lane: Lane, expected: Option<Sha>): Sha
      requires lane in anchors
    {
      if expected.Some? then expected.value else anchors[lane]
    }
  }

  datatype Worker =
    | Idle
    | HasCursor(lane: Lane, cursor: Option<Sha>)
    | HasTarget(lane: Lane, target: Target)
    | HasFiles(lane: Lane, target: Target, files: seq<ProjectionFile>)
    | HasCut(lane: Lane, target: Target, files: seq<ProjectionFile>, cut: Cut)
    | HasClaim(claim: Claim, target: Target, files: seq<ProjectionFile>, recorded: nat)
    | Stopped

  // One finalization: the claim, the commits it covered and the files it projected.
  datatype Finalized = Finalized(claim: Claim, commits: seq<Sha>, files: seq<ProjectionFile>)

  // seeds and history are history variables: what each lane was seeded with, and its finalizations in order.
  datatype System = System(journal: State, refs: map<string, Sha>, workers: map<nat, Worker>,
                           seeds: map<Lane, Option<Sha>>, history: map<Lane, seq<Finalized>>)

  datatype Event =
    | MoveRef(branch: string, commit: Sha)
    | SeedLane(lane: Lane, head: Option<Sha>)
    | ReadCursor(w: nat, lane: Lane)
    | Derive(w: nat, listing: seq<Sha>)
    | Validate(w: nat, listing: seq<Sha>)
    | BindCut(w: nat, cut: Cut)
    | TakeClaim(w: nat, batchId: BatchId, token: nat, now: int)
    | RecordNext(w: nat, result: FileState)
    | Finalize(w: nat, now: int)
    | Abandon(w: nat)

  // Commits named by refs and seeds exist, Git lists ranges truthfully, and uuids are fresh.
  ghost predicate Legal(world: World, s: System, e: Event)
    requires world.WellFormed()
  {
    match e
    case MoveRef(_, commit) => commit in world.repo.trees
    case SeedLane(lane, head) => lane in world.writers && (head.Some? ==> head.value in world.repo.trees)
    case ReadCursor(w, lane) => lane in world.writers && (w in s.workers ==> s.workers[w] in {Idle, Stopped})
    case Derive(w, listing) =>
      && w in s.workers && s.workers[w].HasCursor?
      && var lane := s.workers[w].lane;
      && lane in world.anchors
      && (lane.branch in s.refs ==>
            && s.refs[lane.branch] in world.repo.trees
            && world.Start(lane, s.workers[w].cursor) in world.repo.trees
            && world.repo.graph.RevListing(world.Start(lane, s.workers[w].cursor), s.refs[lane.branch], listing))
    case Validate(w, listing) =>
      && w in s.workers && s.workers[w].HasTarget?
      && s.workers[w].target.base in world.repo.trees && s.workers[w].target.observed in world.repo.trees
      && world.repo.graph.RevListing(s.workers[w].target.base, s.workers[w].target.observed, listing)
    case BindCut(w, _) => w in s.workers && s.workers[w].HasFiles?
    case TakeClaim(w, batchId, _, _) => w in s.workers && s.workers[w].HasCut? && batchId !in s.journal.batches
    case RecordNext(w, _) => w in s.workers && s.workers[w].HasClaim? && s.workers[w].recorded < |s.workers[w].files|
    case Finalize(w, _) => w in s.workers && s.workers[w].HasClaim? && s.workers[w].recorded == |s.workers[w].files|
    case Abandon(w) => w in s.workers
  }

  function Put(s: System, w: nat, worker: Worker): System {
    s.(workers := s.workers[w := worker])
  }

  function ClaimOf(worker: Worker, batchId: BatchId, token: nat, now: int): Claim
    requires worker.HasCut?
  {
    Claim(batchId, token, worker.lane, worker.target.projected, worker.target.observed, worker.cut, now + CLAIM_LEASE_MS)
  }

  ghost function AfterDerive(world: World, s: System, w: nat, listing: seq<Sha>): System
    requires world.WellFormed() && Legal(world, s, Derive(w, listing))
  {
    var HasCursor(lane, cursor) := s.workers[w];
    if lane.branch !in s.refs then Put(s, w, Stopped)
    else
      var target := DeriveTarget(world.repo.graph, world.anchors[lane], cursor, s.refs[lane.branch], listing);
      Put(s, w, if target.disposition == Forward then HasTarget(lane, target) else Stopped)
  }

  ghost function AfterValidate(world: World, s: System, w: nat, listing: seq<Sha>): System
    requires world.WellFormed() && Legal(world, s, Validate(w, listing))
  {
    var HasTarget(lane, target) := s.workers[w];
    if && lane in world.writers
       && RangeAdmissible(world.repo, target.base, target.observed, listing, world.writers[lane], world.reserved[lane])
       && listing == target.commits
       && Collectable(world.repo, listing, world.maxFileBytes)
    then Put(s, w, HasFiles(lane, target, Collected(world.repo, listing)))
    else Put(s, w, Stopped)
  }

  function AfterFinalizeStep(s: System, w: nat, now: int): System
    requires w in s.workers && s.workers[w].HasClaim?
  {
    var HasClaim(claim, target, files, _) := s.workers[w];
    var r := AfterFinalize(s.journal, claim, now);
    if r.Err? then Put(s, w, Stopped)
    else
      var t := Put(s, w, Stopped).(journal := r.value);
      if claim.batchId in s.journal.batches && s.journal.batches[claim.batchId].complete then t
      else
        var done := if claim.lane in s.history then s.history[claim.lane] else [];
        t.(history := s.history[claim.lane := done + [Finalized(claim, target.commits, files)]])
  }

  function AfterSeedLane(s: System, lane: Lane, head: Option<Sha>): System {
    var r := AfterSeed(s.journal, lane, head);
    if r.Err? then s
    else s.(journal := r.value, seeds := if lane in s.seeds then s.seeds else s.seeds[lane := head])
  }

  function AfterBindCut(s: System, w: nat, cut: Cut): System
    requires w in s.workers && s.workers[w].HasFiles?
  {
    var HasFiles(lane, target, files) := s.workers[w];
    var r := AfterControlCut(s.journal, lane, cut);
    if r.Err? then Put(s, w, Stopped)
    else Put(s, w, HasCut(lane, target, files, cut)).(journal := r.value)
  }

  function AfterTakeClaim(s: System, w: nat, batchId: BatchId, token: nat, now: int): System
    requires w in s.workers && s.workers[w].HasCut?
  {
    var HasCut(_, target, files, _) := s.workers[w];
    var claim := ClaimOf(s.workers[w], batchId, token, now);
    var r := AfterClaim(s.journal, claim, Paths(files), now, CLAIM_LEASE_MS);
    if r.Err? then Put(s, w, Stopped)
    else Put(s, w, HasClaim(claim, target, files, 0)).(journal := r.value)
  }

  // A result other than a success is recorded, and then the worker gives up.
  function AfterRecordNext(s: System, w: nat, result: FileState): System
    requires w in s.workers && s.workers[w].HasClaim? && s.workers[w].recorded < |s.workers[w].files|
  {
    var HasClaim(claim, target, files, n) := s.workers[w];
    var r := AfterRecord(s.journal, claim, files[n].path, result);
    if r.Err? then Put(s, w, Stopped)
    else Put(s, w, if TerminalSuccess(result) then HasClaim(claim, target, files, n + 1) else Stopped).(journal := r.value)
  }

  ghost function Next(world: World, s: System, e: Event): System
    requires world.WellFormed() && Legal(world, s, e)
  {
    match e
    case MoveRef(branch, commit) => s.(refs := s.refs[branch := commit])
    case SeedLane(lane, head) => AfterSeedLane(s, lane, head)
    case ReadCursor(w, lane) =>
      Put(s, w, if lane in s.journal.lanes then HasCursor(lane, s.journal.lanes[lane]) else Stopped)
    case Derive(w, listing) => AfterDerive(world, s, w, listing)
    case Validate(w, listing) => AfterValidate(world, s, w, listing)
    case BindCut(w, cut) => AfterBindCut(s, w, cut)
    case TakeClaim(w, batchId, token, now) => AfterTakeClaim(s, w, batchId, token, now)
    case RecordNext(w, result) => AfterRecordNext(s, w, result)
    case Finalize(w, now) => AfterFinalizeStep(s, w, now)
    case Abandon(w) => Put(s, w, Stopped)
  }

  // ---- What every step keeps ----

  // The range of a claim is a validated line of its lane, from the expected cursor (or the anchor) to a
  // strictly later head, and its files are what that line adds.
  ghost predicate Sound(world: World, lane: Lane, expected: Option<Sha>, target: Sha, commits: seq<Sha>, files: seq<ProjectionFile>)
    requires world.WellFormed()
  {
    && lane in world.writers
    && target in world.repo.trees && world.Start(lane, expected) in world.repo.trees
    && world.repo.graph.Ancestor(world.anchors[lane], world.Start(lane, expected))
    && (expected.Some? ==> expected.value != target)
    && Line(world.repo.graph, world.Start(lane, expected), target, commits)
    && AllAdmissible(world.repo, commits, world.writers[lane], world.reserved[lane])
    && (forall c :: c in commits ==> world.repo.graph.SingleParent(c))
    && files == Collected(world.repo, commits)
  }

  // A derived target starts at the cursor that was read and leads forward along the graph.
  ghost predicate TargetSound(world: World, lane: Lane, t: Target)
    requires world.WellFormed()
  {
    && lane in world.writers
    && t.base == world.Start(lane, t.projected)
    && t.base in world.repo.trees && t.observed in world.repo.trees
    && world.repo.graph.Ancestor(world.anchors[lane], t.base)
    && world.repo.graph.Ancestor(t.base, t.observed)
    && (t.projected.Some? ==> t.projected.value != t.observed)
  }

  ghost predicate WorkerSound(world: World, journal: State, worker: Worker)
    requires world.WellFormed()
  {
    match worker
    case HasCursor(lane, cursor) => lane in world.writers && (cursor.Some? ==> cursor.value in world.repo.trees)
    case HasTarget(lane, t) => TargetSound(world, lane, t)
    case HasFiles(lane, t, files) => Sound(world, lane, t.projected, t.observed, t.commits, files)
    case HasCut(lane, t, files, _) => Sound(world, lane, t.projected, t.observed, t.commits, files)
    case HasClaim(claim, t, files, _) =>
      && Sound(world, claim.lane, claim.expected, claim.target, t.commits, files)
      && claim.batchId in journal.batches && journal.batches[claim.batchId].claim == claim
    case _ => true
  }

  // The cursor that a list of finalizations leaves.
  function CursorAfter(seed: Option<Sha>, done: seq<Finalized>): Option<Sha> {
    if done == [] then seed else Some(done[|done| - 1].claim.target)
  }

  ghost predicate HistorySound(world: World, lane: Lane, seed: Option<Sha>, done: seq<Finalized>)
    requires world.WellFormed()
    decreases |done|
  {
    done == [] ||
    (var n := |done| - 1;
     && HistorySound(world, lane, seed, done[..n])
     && done[n].claim.lane == lane
     && done[n].claim.expected == CursorAfter(seed, done[..n])
     && Sound(world, lane, done[n].claim.expected, done[n].claim.target, done[n].commits, done[n].files))
  }

  function Done(s: System, lane: Lane): seq<Finalized> {
    if lane in s.history then s.history[lane] else []
  }

  ghost predicate LaneSound(world: World, s: System, lane: Lane)
    requires world.WellFormed()
  {
    && lane in world.writers
    && lane in s.seeds
    && lane in s.journal.lanes
    && (s.seeds[lane].Some? ==> s.seeds[lane].value in world.repo.trees)
    && s.journal.lanes[lane] == CursorAfter(s.seeds[lane], Done(s, lane))
    && HistorySound(world, lane, s.seeds[lane], Done(s, lane))
  }

  ghost predicate WorkersSound(world: World, journal: State, workers: map<nat, Worker>)
    requires world.WellFormed()
  {
    forall w :: w in workers ==> WorkerSound(world, journal, workers[w])
  }

  ghost predicate LanesSound(world: World, s: System, lanes: set<Lane>)
    requires world.WellFormed()
  {
    forall lane :: lane in lanes ==> LaneSound(world, s, lane)
  }

  ghost predicate Inv(world: World, s: System)
    requires world.WellFormed()
  {
    && Valid(s.journal)
    && (forall b :: b in s.refs ==> s.refs[b] in world.repo.trees)
    && WorkersSound(world, s.journal, s.workers)
    && s.history.Keys <= s.journal.lanes.Keys
    && s.seeds.Keys == s.journal.lanes.Keys
    && LanesSound(world, s, s.journal.lanes.Keys)
  }

  // A journal operation of any worker leaves issued claims in place, and cursors too unless it completes a batch.
  ghost predicate JournalExtends(before: State, after: State) {
    && Valid(after)
    && before.lanes == after.lanes
    && ClaimsPersist(before, after)
  }

  ghost predicate ClaimsPersist(before: State, after: State) {
    forall id :: id in before.batches ==> id in after.batches && after.batches[id].claim == before.batches[id].claim
  }

  lemma InvWorker(world: World, s: System, w: nat)
    requires world.WellFormed() && Inv(world, s) && w in s.workers
    ensures WorkerSound(world, s.journal, s.workers[w]) && Valid(s.journal)
  {
    hide Sound;
    hide TargetSound;
    hide LanesSound;
  }

  lemma InvJournal(world: World, s: System)
    requires world.WellFormed() && Inv(world, s)
    ensures Valid(s.journal) && forall b :: b in s.refs ==> s.refs[b] in world.repo.trees
  {
    hide WorkersSound;
    hide LanesSound;
  }

  lemma PutKeepsInv(world: World, s: System, w: nat, worker: Worker, journal: State)
    requires world.WellFormed() && Inv(world, s)
    requires JournalExtends(s.journal, journal)
    requires WorkerSound(world, journal, worker)
    ensures Inv(world, Put(s, w, worker).(journal := journal))
  {
    hide WorkerSound;
    hide HistorySound;
    hide Valid;
    var t := Put(s, w, worker).(journal := journal);
    forall v | v in t.workers ensures WorkerSound(world, t.journal, t.workers[v]) {
      if v != w { WorkerStaysSound(world, s.journal, journal, s.workers[v]); }
    }
    forall lane | lane in t.journal.lanes ensures LaneSound(world, t, lane) {
      assert LaneSound(world, s, lane);
    }
  }

  lemma WorkerStaysSound(world: World, before: State, after: State, worker: Worker)
    requires world.WellFormed() && WorkerSound(world, before, worker) && ClaimsPersist(before, after)
    ensures WorkerSound(world, after, worker)
  {
    hide Sound;
    hide TargetSound;
  }

  lemma CutExtends(j: State, lane: Lane, cut: Cut)
    requires Valid(j)
    ensures var r := AfterControlCut(j, lane, cut); r.Ok? ==> JournalExtends(j, r.value)
  {
  }

  lemma ClaimExtends(j: State, claim: Claim, files: seq<Path>, now: int)
    requires Valid(j) && claim.batchId !in j.batches
    ensures var r := AfterClaim(j, claim, files, now, CLAIM_LEASE_MS);
            r.Ok? ==> JournalExtends(j, r.value) && claim.batchId in r.value.batches && r.value.batches[claim.batchId].claim == claim
  {
  }

  lemma RecordExtends(j: State, claim: Claim, path: Path, result: FileState)
    requires Valid(j) && Issued(j, claim)
    ensures var r := AfterRecord(j, claim, path, result); r.Ok? ==> JournalExtends(j, r.value)
  {
  }

  // The one journal operation that moves a cursor.
  lemma FinalizeEffect(j: State, claim: Claim, now: int)
    requires Valid(j) && claim.batchId in j.batches && j.batches[claim.batchId].claim == claim
    ensures var r := AfterFinalize(j, claim, now);
            r.Ok? ==>
              && Valid(r.value)
              && ClaimsPersist(j, r.value)
              && if j.batches[claim.batchId].complete then r.value == j
                 else claim.lane in j.lanes && j.lanes[claim.lane] == claim.expected
                      && r.value.lanes == j.lanes[claim.lane := Some(claim.target)]
  {
  }

  lemma WorkersStaySound(world: World, s: System, workers: map<nat, Worker>, journal: State)
    requires world.WellFormed() && Inv(world, s)
    requires forall w :: w in workers ==> workers[w] == Stopped || (w in s.workers && workers[w] == s.workers[w])
    requires ClaimsPersist(s.journal, journal)
    ensures WorkersSound(world, journal, workers)
  {
    forall w | w in workers ensures WorkerSound(world, journal, workers[w]) {
      if workers[w] != Stopped { assert WorkerSound(world, s.journal, s.workers[w]); }
    }
  }

  lemma ReseedChangesNothing(world: World, s: System, lane: Lane, head: Option<Sha>)
    requires world.WellFormed() && Inv(world, s) && lane in s.journal.lanes
    ensures AfterSeedLane(s, lane, head) == s
  {
    assert LaneSound(world, s, lane);
    var r := AfterSeed(s.journal, lane, head);
    if r.Ok? { assert r.value.lanes == s.journal.lanes; }
  }

  // t is s after the lane was seeded for the first time.
  ghost predicate Seeded(world: World, s: System, t: System, lane: Lane, head: Option<Sha>)
    requires world.WellFormed()
  {
    && lane in world.writers && (head.Some? ==> head.value in world.repo.trees)
    && lane !in s.journal.lanes
    && t.journal == s.journal.(lanes := s.journal.lanes[lane := head])
    && t.seeds == s.seeds[lane := head]
    && t.refs == s.refs && t.workers == s.workers && t.history == s.history
  }

  lemma SeededKeepsLanes(world: World, s: System, t: System, lane: Lane, head: Option<Sha>)
    requires world.WellFormed() && Inv(world, s) && Seeded(world, s, t, lane, head)
    ensures LanesSound(world, t, t.journal.lanes.Keys)
  {
    forall l | l in t.journal.lanes ensures LaneSound(world, t, l) {
      if l == lane {
        assert HistorySound(world, lane, head, []);
      } else {
        assert LaneSound(world, s, l);
      }
    }
  }

  lemma SeededKeepsInv(world: World, s: System, t: System, lane: Lane, head: Option<Sha>)
    requires world.WellFormed() && Inv(world, s) && Seeded(world, s, t, lane, head)
    ensures Inv(world, t)
  {
    WorkersStaySound(world, s, s.workers, t.journal);
    SeededKeepsLanes(world, s, t, lane, head);
  }

  lemma SeedKeepsInv(world: World, s: System, lane: Lane, head: Option<Sha>)
    requires world.WellFormed() && Inv(world, s)
    requires lane in world.writers && (head.Some? ==> head.value in world.repo.trees)
    ensures Inv(world, AfterSeedLane(s, lane, head))
  {
    if lane in s.journal.lanes {
      ReseedChangesNothing(world, s, lane, head);
    } else {
      SeededKeepsInv(world, s, AfterSeedLane(s, lane, head), lane, head);
    }
  }

  lemma DeriveSound(world: World, lane: Lane, cursor: Option<Sha>, observed: Sha, listing: seq<Sha>)
    requires world.WellFormed() && lane in world.writers && observed in world.repo.trees
    requires cursor.Some? ==> cursor.value in world.repo.trees
    ensures var t := DeriveTarget(world.repo.graph, world.anchors[lane], cursor, observed, listing);
            t.disposition == Forward ==> TargetSound(world, lane, t)
  {
  }

  // Validation turns an ancestral range into a line: this is where the merge check and the listing meet.
  lemma ValidateSound(world: World, lane: Lane, t: Target, listing: seq<Sha>)
    requires world.WellFormed() && TargetSound(world, lane, t)
    requires world.repo.graph.RevListing(t.base, t.observed, listing)
    requires RangeAdmissible(world.repo, t.base, t.observed, listing, world.writers[lane], world.reserved[lane])
    requires listing == t.commits && Collectable(world.repo, listing, world.maxFileBytes)
    ensures Sound(world, lane, t.projected, t.observed, t.commits, Collected(world.repo, listing))
  {
    SingleParentListingIsLine(world.repo.graph, t.base, t.observed, listing);
  }

  lemma HistoryGrows(world: World, lane: Lane, seed: Option<Sha>, done: seq<Finalized>, f: Finalized)
    requires world.WellFormed() && HistorySound(world, lane, seed, done)
    requires f.claim.lane == lane && f.claim.expected == CursorAfter(seed, done)
    requires Sound(world, lane, f.claim.expected, f.claim.target, f.commits, f.files)
    ensures HistorySound(world, lane, seed, done + [f])
  {
    assert (done + [f])[..|done|] == done;
  }

  lemma FinalizeKeepsInv(world: World, s: System, w: nat, now: int)
    requires world.WellFormed() && Inv(world, s) && w in s.workers && s.workers[w].HasClaim?
    ensures Inv(world, AfterFinalizeStep(s, w, now))
  {
    hide Inv;
    hide Valid;
    hide Sound;
    hide HistorySound;
    var HasClaim(claim, target, files, _) := s.workers[w];
    InvWorker(world, s, w);
    FinalizeEffect(s.journal, claim, now);
    if AfterFinalize(s.journal, claim, now).Err? || s.journal.batches[claim.batchId].complete {
      PutKeepsInv(world, s, w, Stopped, s.journal);
    } else {
      CompletionKeepsInv(world, s, AfterFinalizeStep(s, w, now), w, Finalized(claim, target.commits, files));
    }
  }

  // t is s after worker w completed f.
  ghost predicate Completion(world: World, s: System, t: System, w: nat, f: Finalized)
    requires world.WellFormed()
  {
    && Valid(t.journal)
    && f.claim.lane in s.journal.lanes && s.journal.lanes[f.claim.lane] == f.claim.expected
    && Sound(world, f.claim.lane, f.claim.expected, f.claim.target, f.commits, f.files)
    && t.journal.lanes == s.journal.lanes[f.claim.lane := Some(f.claim.target)]
    && ClaimsPersist(s.journal, t.journal)
    && t.workers == s.workers[w := Stopped] && t.refs == s.refs && t.seeds == s.seeds
    && t.history == s.history[f.claim.lane := Done(s, f.claim.lane) + [f]]
  }

  lemma CompletionKeepsInv(world: World, s: System, t: System, w: nat, f: Finalized)
    requires world.WellFormed() && Inv(world, s) && Completion(world, s, t, w, f)
    ensures Inv(world, t)
  {
    WorkersStaySound(world, s, t.workers, t.journal);
    CompletionKeepsLanes(world, s, t, w, f);
    assert t.journal.lanes.Keys == s.journal.lanes.Keys;
  }

  lemma CompletionKeepsLanes(world: World, s: System, t: System, w: nat, f: Finalized)
    requires world.WellFormed() && Inv(world, s) && Completion(world, s, t, w, f)
    ensures LanesSound(world, t, s.journal.lanes.Keys)
  {
    var lane := f.claim.lane;
    forall l | l in s.journal.lanes ensures LaneSound(world, t, l) {
      assert LaneSound(world, s, l);
      if l == lane { CompletedLaneSound(world, s, t, w, f); }
    }
  }

  lemma CompletedLaneSound(world: World, s: System, t: System, w: nat, f: Finalized)
    requires world.WellFormed() && LaneSound(world, s, f.claim.lane) && Completion(world, s, t, w, f)
    ensures LaneSound(world, t, f.claim.lane)
  {
    var lane := f.claim.lane;
    HistoryGrows(world, lane, s.seeds[lane], Done(s, lane), f);
    assert Done(t, lane) == Done(s, lane) + [f];
  }

  lemma ReadKeepsInv(world: World, s: System, w: nat, lane: Lane)
    requires world.WellFormed() && Inv(world, s) && Legal(world, s, ReadCursor(w, lane))
    ensures Inv(world, Next(world, s, ReadCursor(w, lane)))
  {
    if lane in s.journal.lanes {
      assert LaneSound(world, s, lane);
      CursorInGraph(world, lane, s.seeds[lane], Done(s, lane));
      PutKeepsInv(world, s, w, HasCursor(lane, s.journal.lanes[lane]), s.journal);
    } else {
      PutKeepsInv(world, s, w, Stopped, s.journal);
    }
  }

  lemma DeriveKeepsInv(world: World, s: System, w: nat, listing: seq<Sha>)
    requires world.WellFormed() && Inv(world, s) && Legal(world, s, Derive(w, listing))
    ensures Inv(world, AfterDerive(world, s, w, listing))
  {
    hide Inv;
    hide Valid;
    hide TargetSound;
    var HasCursor(lane, cursor) := s.workers[w];
    InvWorker(world, s, w);
    InvJournal(world, s);
    if lane.branch in s.refs {
      DeriveSound(world, lane, cursor, s.refs[lane.branch], listing);
    }
    PutKeepsInv(world, s, w, AfterDerive(world, s, w, listing).workers[w], s.journal);
  }

  lemma ValidateKeepsInv(world: World, s: System, w: nat, listing: seq<Sha>)
    requires world.WellFormed() && Inv(world, s) && Legal(world, s, Validate(w, listing))
    ensures Inv(world, AfterValidate(world, s, w, listing))
  {
    hide Inv;
    hide Valid;
    hide Sound;
    hide TargetSound;
    var HasTarget(lane, t) := s.workers[w];
    InvWorker(world, s, w);
    if AfterValidate(world, s, w, listing).workers[w] != Stopped {
      ValidateSound(world, lane, t, listing);
    }
    PutKeepsInv(world, s, w, AfterValidate(world, s, w, listing).workers[w], s.journal);
  }

  lemma BindCutKeepsInv(world: World, s: System, w: nat, cut: Cut)
    requires world.WellFormed() && Inv(world, s) && w in s.workers && s.workers[w].HasFiles?
    ensures Inv(world, AfterBindCut(s, w, cut))
  {
    hide Inv;
    hide Valid;
    hide Sound;
    var t := AfterBindCut(s, w, cut);
    InvWorker(world, s, w);
    CutExtends(s.journal, s.workers[w].lane, cut);
    PutKeepsInv(world, s, w, t.workers[w], t.journal);
  }

  lemma TakeClaimKeepsInv(world: World, s: System, w: nat, batchId: BatchId, token: nat, now: int)
    requires world.WellFormed() && Inv(world, s) && w in s.workers && s.workers[w].HasCut?
    requires batchId !in s.journal.batches
    ensures Inv(world, AfterTakeClaim(s, w, batchId, token, now))
  {
    hide Inv;
    hide Valid;
    hide Sound;
    var t := AfterTakeClaim(s, w, batchId, token, now);
    InvWorker(world, s, w);
    ClaimExtends(s.journal, ClaimOf(s.workers[w], batchId, token, now), Paths(s.workers[w].files), now);
    PutKeepsInv(world, s, w, t.workers[w], t.journal);
  }

  lemma RecordKeepsInv(world: World, s: System, w: nat, result: FileState)
    requires world.WellFormed() && Inv(world, s) && w in s.workers && s.workers[w].HasClaim?
    requires s.workers[w].recorded < |s.workers[w].files|
    ensures Inv(world, AfterRecordNext(s, w, result))
  {
    hide Inv;
    hide Valid;
    hide Sound;
    var t := AfterRecordNext(s, w, result);
    var HasClaim(claim, _, files, n) := s.workers[w];
    InvWorker(world, s, w);
    RecordExtends(s.journal, claim, files[n].path, result);
    PutKeepsInv(world, s, w, t.workers[w], t.journal);
  }

  lemma MoveKeepsInv(world: World, s: System, branch: string, commit: Sha)
    requires world.WellFormed() && Inv(world, s) && commit in world.repo.trees
    ensures Inv(world, s.(refs := s.refs[branch := commit]))
  {
    hide HistorySound;
    hide WorkerSound;
    hide Valid;
    var t := s.(refs := s.refs[branch := commit]);
    forall lane | lane in t.journal.lanes ensures LaneSound(world, t, lane) {
      assert LaneSound(world, s, lane);
    }
  }

  lemma NextKeepsInv(world: World, s: System, e: Event)
    requires world.WellFormed() && Inv(world, s) && Legal(world, s, e)
    ensures Inv(world, Next(world, s, e))
  {
    hide Inv;
    InvJournal(world, s);
    match e {
      case MoveRef(branch, commit) => MoveKeepsInv(world, s, branch, commit);
      case SeedLane(lane, head) => SeedKeepsInv(world, s, lane, head);
      case ReadCursor(w, lane) => ReadKeepsInv(world, s, w, lane);
      case Derive(w, listing) => DeriveKeepsInv(world, s, w, listing);
      case Validate(w, listing) => ValidateKeepsInv(world, s, w, listing);
      case BindCut(w, cut) => BindCutKeepsInv(world, s, w, cut);
      case TakeClaim(w, batchId, token, now) => TakeClaimKeepsInv(world, s, w, batchId, token, now);
      case RecordNext(w, result) => RecordKeepsInv(world, s, w, result);
      case Finalize(w, now) => FinalizeKeepsInv(world, s, w, now);
      case Abandon(w) => PutKeepsInv(world, s, w, Stopped, s.journal);
    }
  }

  lemma CursorInGraph(world: World, lane: Lane, seed: Option<Sha>, done: seq<Finalized>)
    requires world.WellFormed() && HistorySound(world, lane, seed, done)
    requires seed.Some? ==> seed.value in world.repo.trees
    ensures CursorAfter(seed, done).Some? ==> CursorAfter(seed, done).value in world.repo.trees
  {
  }

  // ---- Theorems over every run ----

  ghost predicate LegalRun(world: World, s: System, events: seq<Event>)
    requires world.WellFormed()
    decreases |events|
  {
    events == [] || (Legal(world, s, events[0]) && LegalRun(world, Next(world, s, events[0]), events[1..]))
  }

  ghost function Run(world: World, s: System, events: seq<Event>): System
    requires world.WellFormed() && LegalRun(world, s, events)
    decreases |events|
  {
    if events == [] then s else Run(world, Next(world, s, events[0]), events[1..])
  }

  const INITIAL := System(EMPTY, map[], map[], map[], map[])

  lemma {:induction false} RunKeepsInv(world: World, s: System, events: seq<Event>)
    requires world.WellFormed() && Inv(world, s) && LegalRun(world, s, events)
    ensures Inv(world, Run(world, s, events))
    decreases |events|
  {
    if events != [] {
      NextKeepsInv(world, s, events[0]);
      RunKeepsInv(world, Next(world, s, events[0]), events[1..]);
    }
  }

  // Of the steps that touch the journal, only finalization (and a first seed) writes a cursor.
  lemma BindCutKeepsCursors(s: System, w: nat, cut: Cut)
    requires Valid(s.journal) && w in s.workers && s.workers[w].HasFiles?
    ensures AfterBindCut(s, w, cut).journal.lanes == s.journal.lanes
  {
    CutExtends(s.journal, s.workers[w].lane, cut);
  }

  lemma TakeClaimKeepsCursors(s: System, w: nat, batchId: BatchId, token: nat, now: int)
    requires Valid(s.journal) && w in s.workers && s.workers[w].HasCut? && batchId !in s.journal.batches
    ensures AfterTakeClaim(s, w, batchId, token, now).journal.lanes == s.journal.lanes
  {
    ClaimExtends(s.journal, ClaimOf(s.workers[w], batchId, token, now), Paths(s.workers[w].files), now);
  }

  lemma RecordKeepsCursors(world: World, s: System, w: nat, result: FileState)
    requires world.WellFormed() && Inv(world, s) && w in s.workers && s.workers[w].HasClaim?
    requires s.workers[w].recorded < |s.workers[w].files|
    ensures AfterRecordNext(s, w, result).journal.lanes == s.journal.lanes
  {
    hide Inv;
    hide Valid;
    hide Sound;
    InvWorker(world, s, w);
    RecordExtends(s.journal, s.workers[w].claim, s.workers[w].files[s.workers[w].recorded].path, result);
  }

  lemma SeedKeepsCursor(world: World, s: System, seeded: Lane, head: Option<Sha>, lane: Lane)
    requires world.WellFormed() && Inv(world, s) && lane in s.journal.lanes
    ensures lane in AfterSeedLane(s, seeded, head).journal.lanes
    ensures AfterSeedLane(s, seeded, head).journal.lanes[lane] == s.journal.lanes[lane]
  {
    if seeded in s.journal.lanes { ReseedChangesNothing(world, s, seeded, head); }
  }

  lemma OnlyFinalizeMovesCursors(world: World, s: System, e: Event, lane: Lane)
    requires world.WellFormed() && Inv(world, s) && Legal(world, s, e) && lane in s.journal.lanes
    requires !e.Finalize?
    ensures lane in Next(world, s, e).journal.lanes && Next(world, s, e).journal.lanes[lane] == s.journal.lanes[lane]
  {
    hide Inv;
    hide Valid;
    InvJournal(world, s);
    match e {
      case SeedLane(l, head) => SeedKeepsCursor(world, s, l, head, lane);
      case BindCut(w, cut) => BindCutKeepsCursors(s, w, cut);
      case TakeClaim(w, batchId, token, now) => TakeClaimKeepsCursors(s, w, batchId, token, now);
      case RecordNext(w, result) => RecordKeepsCursors(world, s, w, result);
      case _ =>
    }
  }

  // to is strictly ahead of the lane's cursor; of a lane that has none yet, it is at the anchor or ahead of it.
  ghost predicate Ahead(world: World, lane: Lane, cursor: Option<Sha>, to: Option<Sha>)
    requires world.WellFormed()
  {
    && lane in world.anchors
    && to.Some? && to.value in world.repo.trees && to != cursor
    && world.Start(lane, cursor) in world.repo.trees
    && world.repo.graph.Ancestor(world.anchors[lane], world.Start(lane, cursor))
    && world.repo.graph.Ancestor(world.Start(lane, cursor), to.value)
  }

  lemma SoundIsAhead(world: World, lane: Lane, expected: Option<Sha>, target: Sha, commits: seq<Sha>, files: seq<ProjectionFile>)
    requires world.WellFormed() && Sound(world, lane, expected, target, commits, files)
    ensures Ahead(world, lane, expected, Some(target))
  {
    LineAncestor(world.repo.graph, world.Start(lane, expected), target, commits);
  }

  lemma HeldClaim(world: World, s: System, w: nat)
    requires world.WellFormed() && Inv(world, s) && w in s.workers && s.workers[w].HasClaim?
    ensures var claim := s.workers[w].claim;
            && claim.batchId in s.journal.batches && s.journal.batches[claim.batchId].claim == claim
            && Ahead(world, claim.lane, claim.expected, Some(claim.target))
  {
    var claim := s.workers[w].claim;
    assert WorkerSound(world, s.journal, s.workers[w]);
    SoundIsAhead(world, claim.lane, claim.expected, claim.target, s.workers[w].target.commits, s.workers[w].files);
  }

  lemma FinalizeJournalForward(j: State, claim: Claim, now: int, lane: Lane)
    requires Valid(j) && claim.batchId in j.batches && j.batches[claim.batchId].claim == claim && lane in j.lanes
    ensures var r := AfterFinalize(j, claim, now);
            r.Ok? ==>
              && lane in r.value.lanes
              && (r.value.lanes[lane] == j.lanes[lane]
                  || (lane == claim.lane && j.lanes[lane] == claim.expected && r.value.lanes[lane] == Some(claim.target)))
  {
  }

  lemma FinalizeMovesForward(world: World, s: System, w: nat, now: int, lane: Lane)
    requires world.WellFormed() && Inv(world, s) && w in s.workers && s.workers[w].HasClaim? && lane in s.journal.lanes
    ensures var after := AfterFinalizeStep(s, w, now).journal.lanes;
            lane in after && (after[lane] == s.journal.lanes[lane] || Ahead(world, lane, s.journal.lanes[lane], after[lane]))
  {
    HeldClaim(world, s, w);
    FinalizeJournalForward(s.journal, s.workers[w].claim, now, lane);
  }

  // Whatever the branches and the other workers do, one step moves a lane's cursor only by finalization,
  // and then forward along the commit graph, never sideways or back.
  lemma FinalizationMovesForward(world: World, s: System, e: Event, lane: Lane)
    requires world.WellFormed() && Inv(world, s) && Legal(world, s, e) && lane in s.journal.lanes
    ensures var after := Next(world, s, e).journal.lanes;
            && lane in after
            && (after[lane] == s.journal.lanes[lane] || (e.Finalize? && Ahead(world, lane, s.journal.lanes[lane], after[lane])))
  {
    if e.Finalize? {
      FinalizeMovesForward(world, s, e.w, e.now, lane);
    } else {
      OnlyFinalizeMovesCursors(world, s, e, lane);
    }
  }

  // Over a whole run the cursor only ever advances: wherever it stood, it stands at a descendant later,
  // whatever the branches and the other workers did in between.
  lemma {:induction false} CursorNeverGoesBack(world: World, s: System, events: seq<Event>, lane: Lane)
    requires world.WellFormed() && Inv(world, s) && LegalRun(world, s, events) && lane in s.journal.lanes
    ensures var before, after := world.Start(lane, s.journal.lanes[lane]), Run(world, s, events).journal.lanes;
            && lane in after && (s.journal.lanes[lane].Some? ==> after[lane].Some?)
            && lane in world.anchors
            && before in world.repo.trees && world.Start(lane, after[lane]) in world.repo.trees
            && world.repo.graph.Ancestor(before, world.Start(lane, after[lane]))
    decreases |events|
  {
    assert LaneSound(world, s, lane);
    CursorInGraph(world, lane, s.seeds[lane], Done(s, lane));
    if events != [] {
      var t := Next(world, s, events[0]);
      FinalizationMovesForward(world, s, events[0], lane);
      NextKeepsInv(world, s, events[0]);
      CursorNeverGoesBack(world, t, events[1..], lane);
      AncestorTransitive(world.repo.graph, world.Start(lane, s.journal.lanes[lane]), world.Start(lane, t.journal.lanes[lane]),
                         world.Start(lane, Run(world, s, events).journal.lanes[lane]));
    }
  }

  // ---- What the finalizations of a lane cover, taken together ----

  function AllCommits(done: seq<Finalized>): seq<Sha> {
    if done == [] then [] else AllCommits(done[..|done| - 1]) + done[|done| - 1].commits
  }

  function AllFiles(done: seq<Finalized>): seq<ProjectionFile> {
    if done == [] then [] else AllFiles(done[..|done| - 1]) + done[|done| - 1].files
  }

  ghost predicate Covered(world: World, lane: Lane, from: Sha, to: Sha, commits: seq<Sha>, files: seq<ProjectionFile>)
    requires world.WellFormed() && lane in world.writers
  {
    && from in world.repo.trees && to in world.repo.trees
    && Line(world.repo.graph, from, to, commits)
    && AllAdmissible(world.repo, commits, world.writers[lane], world.reserved[lane])
    && (forall c :: c in commits ==> world.repo.graph.SingleParent(c))
    && files == Collected(world.repo, commits)
  }

  lemma CoveredConcat(world: World, lane: Lane, a: Sha, b: Sha, c: Sha, x: seq<Sha>, y: seq<Sha>,
                      f: seq<ProjectionFile>, h: seq<ProjectionFile>)
    requires world.WellFormed() && lane in world.writers
    requires Covered(world, lane, a, b, x, f) && Covered(world, lane, b, c, y, h)
    ensures Covered(world, lane, a, c, x + y, f + h)
  {
    LineConcat(world.repo.graph, a, b, c, x, y);
    CollectedConcat(world.repo, x, y);
    forall k | 0 <= k < |x + y|
      ensures CommitAdmissible(world.repo, (x + y)[k], world.writers[lane], world.reserved[lane])
    {
      if k < |x| { assert (x + y)[k] == x[k]; } else { assert (x + y)[k] == y[k - |x|]; }
    }
  }

  lemma {:induction false} HistoryCovers(world: World, lane: Lane, seed: Option<Sha>, done: seq<Finalized>)
    requires world.WellFormed() && lane in world.writers && HistorySound(world, lane, seed, done)
    requires seed.Some? ==> seed.value in world.repo.trees
    ensures Covered(world, lane, world.Start(lane, seed), world.Start(lane, CursorAfter(seed, done)), AllCommits(done), AllFiles(done))
    decreases |done|
  {
    if done != [] {
      var n := |done| - 1;
      HistoryCovers(world, lane, seed, done[..n]);
      CoveredConcat(world, lane, world.Start(lane, seed), world.Start(lane, CursorAfter(seed, done[..n])), done[n].claim.target,
                    AllCommits(done[..n]), done[n].commits, AllFiles(done[..n]), done[n].files);
    }
  }

  // The main theorem. After any interleaving of workers and branch moves, the commit ranges of a lane's
  // finalized batches, in finalization order, are exactly the single-parent path from where the lane
  // started to its cursor, each commit once; and their files, in order, are exactly the messages the
  // cursor's tree has and the start's tree has not, each projected once and as the cursor's tree has it.
  lemma FinalizedBatchesCoverThePath(world: World, events: seq<Event>, lane: Lane)
    requires world.WellFormed() && LegalRun(world, INITIAL, events)
    requires lane in Run(world, INITIAL, events).journal.lanes
    ensures var s := Run(world, INITIAL, events);
            && lane in s.seeds && lane in world.writers &&
            var start, end := world.Start(lane, s.seeds[lane]), world.Start(lane, s.journal.lanes[lane]);
            && start in world.repo.trees && end in world.repo.trees
            && Line(world.repo.graph, start, end, AllCommits(Done(s, lane)))
            && Distinct(AllCommits(Done(s, lane)))
            && Distinct(Paths(AllFiles(Done(s, lane))))
            && PathSet(AllFiles(Done(s, lane))) == AddedMessages(world.repo.trees[start], world.repo.trees[end])
            && (forall f :: f in AllFiles(Done(s, lane)) ==>
                              f.path in world.repo.trees[end] && f.blob == world.repo.trees[end][f.path])
  {
    RunKeepsInv(world, INITIAL, events);
    var s := Run(world, INITIAL, events);
    assert LaneSound(world, s, lane);
    HistoryCovers(world, lane, s.seeds[lane], Done(s, lane));
    var start, end := world.Start(lane, s.seeds[lane]), world.Start(lane, s.journal.lanes[lane]);
    LineIsRange(world.repo.graph, start, end, AllCommits(Done(s, lane)));
    CollectedIsTreeDifference(world.repo, start, end, AllCommits(Done(s, lane)), world.writers[lane], world.reserved[lane]);
  }

  // Projection never makes two messages share an id up to case: if the ids were unique where the lane
  // started, they are unique at its cursor, nothing that was there changed, and no new message took
  // a reserved id.
  lemma CursorKeepsMessageIdsUnique(world: World, events: seq<Event>, lane: Lane)
    requires world.WellFormed() && LegalRun(world, INITIAL, events)
    requires lane in Run(world, INITIAL, events).journal.lanes
    ensures var s := Run(world, INITIAL, events);
            && lane in s.seeds && lane in world.writers &&
            var start, end := world.Start(lane, s.seeds[lane]), world.Start(lane, s.journal.lanes[lane]);
            && start in world.repo.trees && end in world.repo.trees
            && OnlyAppends(world.repo.trees[start], world.repo.trees[end], world.writers[lane], world.reserved[lane])
            && (UniqueIds(world.repo.trees[start]) ==> UniqueIds(world.repo.trees[end]))
  {
    RunKeepsInv(world, INITIAL, events);
    var s := Run(world, INITIAL, events);
    assert LaneSound(world, s, lane);
    HistoryCovers(world, lane, s.seeds[lane], Done(s, lane));
    var start, end := world.Start(lane, s.seeds[lane]), world.Start(lane, s.journal.lanes[lane]);
    LineOnlyAppends(world.repo, start, end, AllCommits(Done(s, lane)), world.writers[lane], world.reserved[lane]);
    if UniqueIds(world.repo.trees[start]) {
      LineKeepsUniqueIds(world.repo, start, end, AllCommits(Done(s, lane)), world.writers[lane], world.reserved[lane]);
    }
  }

  // On a validated range the collection fails for an oversized file and for nothing else: no path is
  // ever repeated, and no merge commit is left.
  lemma CollectionFailsOnlyOnSize(world: World, lane: Lane, t: Target, listing: seq<Sha>)
    requires world.WellFormed() && TargetSound(world, lane, t)
    requires world.repo.graph.RevListing(t.base, t.observed, listing)
    requires RangeAdmissible(world.repo, t.base, t.observed, listing, world.writers[lane], world.reserved[lane])
    ensures Collectable(world.repo, listing, world.maxFileBytes) <==>
              forall p :: p in AddedMessages(world.repo.trees[t.base], world.repo.trees[t.observed]) ==>
                            world.repo.trees[t.observed][p].size <= world.maxFileBytes
  {
    SingleParentListingIsLine(world.repo.graph, t.base, t.observed, listing);
    CollectedIsTreeDifference(world.repo, t.base, t.observed, listing, world.writers[lane], world.reserved[lane]);
    var files := Collected(world.repo, listing);
    forall p | p in PathSet(files) ensures exists f :: f in files && f.path == p {}
  }
}
