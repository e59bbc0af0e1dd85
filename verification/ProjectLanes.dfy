/** One run of the projector (radar_trusted_project.py): for each requested lane it derives the target, validates and
    collects the unseen range, claims a batch, records the file results chunk by chunk, and finalizes. */
module ProjectLanes {
  import opened Wrappers
  import opened CommitGraph
  import opened WriterLanes
  import opened CentralProjection
  import opened ProjectionChunks
  import opened ProjectionJournal
  import T = TrustedProjection

  datatype Job = Job(lane: Lane, writer: WriterLane, reserved: set<string>, anchor: Sha, observed: Sha, listing: seq<Sha>)

  datatype Report = Report(lane: Lane, disposition: T.Disposition, projected: Option<Sha>, observed: Sha, projectedFiles: nat,
                           finalized: Option<Sha>)

  datatype RunError =
    | Diverged(lane: Lane) | RangeRefused(refusal: LaneError) | RangeMismatch | CollectionRefused(files: ProjectionError)
    | JournalRefused(journal: JournalError) | FileResultFailed

  function Cursor(lanes: map<Lane, Option<Sha>>, lane: Lane): Option<Sha> {
    if lane in lanes then lanes[lane] else None
  }

  function Base(lanes: map<Lane, Option<Sha>>, job: Job): Sha {
    var cursor := Cursor(lanes, job.lane);
    if cursor.Some? then cursor.value else job.anchor
  }

  // The commits exist, and Git lists the unseen range truthfully.
  ghost predicate JobOk(repo: Repo, lanes: map<Lane, Option<Sha>>, job: Job)
    requires repo.WellFormed()
  {
    && job.anchor in repo.trees && job.observed in repo.trees && Base(lanes, job) in repo.trees
    && repo.graph.RevListing(Base(lanes, job), job.observed, job.listing)
  }

  // The batch is complete: it moved the cursor from where it was to the target, and its files are the collected ones.
  predicate Completed(batches: map<BatchId, Batch>, id: BatchId, lane: Lane, expected: Option<Sha>, target: Sha, paths: seq<Path>) {
    && id in batches && batches[id].complete && batches[id].claim.lane == lane
    && batches[id].claim.expected == expected && batches[id].claim.target == target
    && batches[id].files.Keys == (set p | p in paths) && Resolved(batches[id].files)
  }

  // Between the two states only file results of this one batch were recorded.
  predicate OnlyFilesOf(before: State, after: State, id: BatchId) {
    && after.lanes == before.lanes && after.cuts == before.cuts && after.active == before.active
    && after.batches.Keys == before.batches.Keys
    && (forall i :: i in before.batches && i != id ==> after.batches[i] == before.batches[i])
    && (id in before.batches ==>
          var was, now := before.batches[id], after.batches[id];
          now.claim == was.claim && now.complete == was.complete && now.files.Keys == was.files.Keys)
  }

  lemma RecordIsLocal(s: State, claim: Claim, path: Path, result: FileState)
    requires AfterRecord(s, claim, path, result).Ok?
    ensures OnlyFilesOf(s, AfterRecord(s, claim, path, result).value, claim.batchId)
  {
  }

  lemma LocalKeepsIssued(s: State, t: State, claim: Claim)
    requires OnlyFilesOf(s, t, claim.batchId) && Issued(s, claim)
    ensures Issued(t, claim)
  {
  }

  lemma OnlyFilesOfAgain(s: State, t: State, u: State, id: BatchId)
    requires OnlyFilesOf(s, t, id) && OnlyFilesOf(t, u, id)
    ensures OnlyFilesOf(s, u, id)
  {
  }

  // project_batch: the provider's results are recorded one by one; a result that is no success ends the run.
  method RecordChunk(journal: Journal, claim: Claim, chunk: Chunk, results: map<Path, FileState>) returns (error: Option<RunError>)
    requires Valid(journal.Contents()) && Issued(journal.Contents(), claim)
    modifies journal
    ensures Valid(journal.Contents()) && Issued(journal.Contents(), claim)
    ensures OnlyFilesOf(old(journal.Contents()), journal.Contents(), claim.batchId)
  {
    hide Valid;
    hide Issued;
    hide AfterRecord;
    for i := 0 to |chunk|
      invariant Valid(journal.Contents()) && Issued(journal.Contents(), claim)
      invariant OnlyFilesOf(old(journal.Contents()), journal.Contents(), claim.batchId)
    {
      ghost var before := journal.Contents();
      var path := chunk[i].path;
      var result := if path in results then results[path] else Failed;
      var refused := journal.RecordFileResult(claim, path, result);
      if refused.Some? { return Some(JournalRefused(refused.value)); }
      RecordIsLocal(before, claim, path, result);
      LocalKeepsIssued(before, journal.Contents(), claim);
      OnlyFilesOfAgain(old(journal.Contents()), before, journal.Contents(), claim.batchId);
      if !TerminalSuccess(result) { return Some(FileResultFailed); }
    }
    error := None;
  }

  /** One lane. A run that reports a finalized head moved that lane's cursor, and no other, from what it had read to the
      observed head, by a complete batch of exactly the message files that the range adds; any other run moves nothing. */
  method ProjectLane(repo: Repo, job: Job, journal: Journal, cut: Cut, batchId: BatchId, token: nat, now: int,
                     results: map<Path, FileState>, maxFileBytes: int)
    returns (r: Result<Report, RunError>)
    requires repo.WellFormed() && Valid(journal.Contents()) && JobOk(repo, journal.lanes, job) && batchId !in journal.batches
    modifies journal
    ensures Valid(journal.Contents())
    ensures r.Err? || r.value.finalized.None? ==> journal.lanes == old(journal.lanes)
    ensures r.Ok? ==> r.value.lane == job.lane && r.value.projected == Cursor(old(journal.lanes), job.lane) && r.value.observed == job.observed
    ensures r.Ok? ==> (r.value.finalized.Some? <==> r.value.disposition == T.Forward)
    ensures r.Ok? && r.value.finalized.Some? ==>
              && r.value.finalized == Some(job.observed)
              && journal.lanes == old(journal.lanes)[job.lane := Some(job.observed)]
              && Collectable(repo, job.listing, maxFileBytes)
              && RangeAdmissible(repo, Base(old(journal.lanes), job), job.observed, job.listing, job.writer, job.reserved)
              && r.value.projectedFiles == |Collected(repo, job.listing)|
              && Completed(journal.batches, batchId, job.lane, Cursor(old(journal.lanes), job.lane), job.observed, Paths(Collected(repo, job.listing)))
    ensures forall id :: id in old(journal.batches) ==> id in journal.batches && journal.batches[id] == old(journal.batches)[id]
    ensures forall id :: id in journal.batches ==> id in old(journal.batches) || id == batchId
  {
    var cursor := if job.lane in journal.lanes then journal.lanes[job.lane] else None;
    var target := T.DeriveTarget(repo.graph, job.anchor, cursor, job.observed, job.listing);
    if target.disposition == T.Noop || target.disposition == T.StaleEvent {
      return Ok(Report(job.lane, target.disposition, cursor, job.observed, 0, None));
    }
    if target.disposition == T.DivergedHistory { return Err(Diverged(job.lane)); }

    var commits := ValidateActiveWriterRange(repo, target.base, target.observed, job.listing, job.writer, job.reserved);
    if commits.Err? { return Err(RangeRefused(commits.error)); }
    if commits.value != target.commits { return Err(RangeMismatch); }
    ListingInGraph(repo, target.base, target.observed, job.listing);
    var files := CollectProjectionFiles(repo, commits.value, maxFileBytes);
    if files.Err? { return Err(CollectionRefused(files.error)); }
    r := ProjectFiles(job, journal, cursor, files.value, cut, batchId, token, now, results);
  }

  lemma ListingInGraph(repo: Repo, base: Sha, head: Sha, listing: seq<Sha>)
    requires repo.WellFormed() && base in repo.trees && head in repo.trees && repo.graph.RevListing(base, head, listing)
    ensures forall c :: c in listing ==> c in repo.trees
  {
  }

  // The journal after the claim, as far as the run counts on it.
  predicate Claimed(before: State, after: State, claim: Claim, paths: seq<Path>) {
    && after.lanes == before.lanes
    && after.batches.Keys == before.batches.Keys + {claim.batchId}
    && (forall id :: id in before.batches && id != claim.batchId ==> after.batches[id] == before.batches[id])
    && after.batches[claim.batchId].claim == claim && !after.batches[claim.batchId].complete
    && after.batches[claim.batchId].files.Keys == set p | p in paths
  }

  lemma ClaimIsClaimed(s: State, cut: Cut, claim: Claim, files: seq<Path>, now: int)
    requires AfterControlCut(s, claim.lane, cut).Ok?
    requires AfterClaim(AfterControlCut(s, claim.lane, cut).value, claim, files, now, T.CLAIM_LEASE_MS).Ok?
    ensures Claimed(s, AfterClaim(AfterControlCut(s, claim.lane, cut).value, claim, files, now, T.CLAIM_LEASE_MS).value, claim, files)
    ensures Issued(AfterClaim(AfterControlCut(s, claim.lane, cut).value, claim, files, now, T.CLAIM_LEASE_MS).value, claim)
  {
  }

  lemma RecordedStaysClaimed(s: State, t: State, u: State, claim: Claim, paths: seq<Path>)
    requires Claimed(s, t, claim, paths) && OnlyFilesOf(t, u, claim.batchId)
    ensures Claimed(s, u, claim, paths)
  {
  }

  // The finalization of the claimed batch moves the cursor and completes the batch.
  lemma FinalizeCompletes(s: State, t: State, claim: Claim, paths: seq<Path>, now: int)
    requires Valid(s) && Claimed(s, t, claim, paths) && claim.batchId !in s.batches && AfterFinalize(t, claim, now).Ok?
    ensures var u := AfterFinalize(t, claim, now).value;
            && u.lanes == s.lanes[claim.lane := Some(claim.target)]
            && Completed(u.batches, claim.batchId, claim.lane, claim.expected, claim.target, paths)
            && u.batches.Keys == s.batches.Keys + {claim.batchId}
            && forall id :: id in s.batches ==> u.batches[id] == s.batches[id]
  {
  }

  // From the control cut to the finalization.
  method ProjectFiles(job: Job, journal: Journal, cursor: Option<Sha>, files: seq<ProjectionFile>, cut: Cut, batchId: BatchId, token: nat,
                      now: int, results: map<Path, FileState>)
    returns (r: Result<Report, RunError>)
    requires Valid(journal.Contents()) && batchId !in journal.batches && cursor == Cursor(journal.lanes, job.lane)
    modifies journal
    ensures Valid(journal.Contents())
    ensures r.Err? ==> journal.lanes == old(journal.lanes)
    ensures r.Ok? ==>
              && r.value == Report(job.lane, T.Forward, cursor, job.observed, |files|, Some(job.observed))
              && journal.lanes == old(journal.lanes)[job.lane := Some(job.observed)]
              && Completed(journal.batches, batchId, job.lane, cursor, job.observed, Paths(files))
    ensures forall id :: id in old(journal.batches) ==> id in journal.batches && journal.batches[id] == old(journal.batches)[id]
    ensures forall id :: id in journal.batches ==> id in old(journal.batches) || id == batchId
  {
    hide Valid;
    hide Issued;
    hide AfterClaim;
    hide AfterFinalize;
    hide OnlyFilesOf;
    hide Partition;
    ghost var s := journal.Contents();
    var refused := journal.SetControlCut(job.lane, cut);
    if refused.Some? { return Err(JournalRefused(refused.value)); }
    var claimed := journal.ClaimBatch(job.lane, cursor, job.observed, cut, Paths(files), now, T.CLAIM_LEASE_MS, batchId, token);
    if claimed.Err? { return Err(JournalRefused(claimed.error)); }
    var claim := claimed.value;
    ClaimIsClaimed(s, cut, claim, Paths(files), now);
    var chunks := ChunkProjectionFiles(files, DEFAULT_LIMITS);
    if chunks.Err? { return Err(CollectionRefused(chunks.error)); }
    var projected := 0;
    for i := 0 to |chunks.value|
      invariant Valid(journal.Contents()) && Issued(journal.Contents(), claim)
      invariant Claimed(s, journal.Contents(), claim, Paths(files))
      invariant projected == |Concat(chunks.value[..i])|
    {
      ghost var before := journal.Contents();
      var failed := RecordChunk(journal, claim, chunks.value[i], results);
      RecordedStaysClaimed(s, before, journal.Contents(), claim, Paths(files));
      if failed.Some? { return Err(failed.value); }
      assert chunks.value[..i + 1] == chunks.value[..i] + [chunks.value[i]];
      ConcatAppend(chunks.value[..i], chunks.value[i]);
      projected := projected + |chunks.value[i]|;
    }
    assert projected == |files| by {
      PartitionConcat(chunks.value, files, DEFAULT_LIMITS);
      assert chunks.value[..|chunks.value|] == chunks.value;
    }
    ghost var recorded := journal.Contents();
    var finalized := journal.FinalizeBatch(claim, now);
    if finalized.Err? { return Err(JournalRefused(finalized.error)); }
    FinalizeCompletes(s, recorded, claim, Paths(files), now);
    r := Ok(Report(job.lane, T.Forward, cursor, job.observed, projected, Some(job.observed)));
  }

  lemma PartitionConcat(chunks: seq<Chunk>, files: Chunk, limits: Limits)
    requires Partition(chunks, files, limits)
    ensures Concat(chunks) == files
  {
  }

  // The reports so far, and the cursors they leave: finalized lanes at their observed heads, the others as they were.
  ghost predicate Reported(before: map<Lane, Option<Sha>>, after: map<Lane, Option<Sha>>, jobs: seq<Job>, reports: seq<Report>) {
    && |reports| <= |jobs|
    && (forall i :: 0 <= i < |reports| ==>
                      && reports[i].lane == jobs[i].lane && reports[i].projected == Cursor(before, jobs[i].lane)
                      && (reports[i].finalized.Some? ==> Cursor(after, jobs[i].lane) == Some(jobs[i].observed)))
    && (forall lane :: Cursor(after, lane) != Cursor(before, lane) ==>
                         exists i :: 0 <= i < |reports| && reports[i].lane == lane && reports[i].finalized.Some?)
  }

  lemma ReportedNext(before: map<Lane, Option<Sha>>, mid: map<Lane, Option<Sha>>, after: map<Lane, Option<Sha>>,
                     jobs: seq<Job>, reports: seq<Report>, report: Report)
    requires Reported(before, mid, jobs, reports) && |reports| < |jobs|
    requires forall i, j :: 0 <= i < j < |jobs| ==> jobs[i].lane != jobs[j].lane
    requires var job := jobs[|reports|];
             && report.lane == job.lane && report.projected == Cursor(mid, job.lane)
             && (if report.finalized.Some? then after == mid[job.lane := Some(job.observed)] else after == mid)
    ensures Reported(before, after, jobs, reports + [report])
  {
    var job, more := jobs[|reports|], reports + [report];
    UntouchedLane(before, mid, jobs, reports, |reports|);
    forall lane | Cursor(after, lane) != Cursor(before, lane)
      ensures exists i :: 0 <= i < |more| && more[i].lane == lane && more[i].finalized.Some?
    {
      if lane == job.lane {
        assert more[|reports|] == report;
      } else {
        var i :| 0 <= i < |reports| && reports[i].lane == lane && reports[i].finalized.Some?;
        assert more[i] == reports[i];
      }
    }
  }

  lemma UntouchedLane(before: map<Lane, Option<Sha>>, after: map<Lane, Option<Sha>>, jobs: seq<Job>, reports: seq<Report>, k: nat)
    requires Reported(before, after, jobs, reports) && |reports| <= k < |jobs|
    requires forall i, j :: 0 <= i < j < |jobs| ==> jobs[i].lane != jobs[j].lane
    ensures Cursor(after, jobs[k].lane) == Cursor(before, jobs[k].lane)
  {
  }

  /** All requested lanes in turn; the first failure ends the run. A cursor has moved only if a report says so. */
  method ProjectRequestedLanes(repo: Repo, jobs: seq<Job>, journal: Journal, cut: Cut, firstBatch: BatchId, now: int,
                               results: map<Path, FileState>, maxFileBytes: int)
    returns (reports: seq<Report>, error: Option<RunError>)
    requires repo.WellFormed() && Valid(journal.Contents())
    requires forall i, j :: 0 <= i < j < |jobs| ==> jobs[i].lane != jobs[j].lane
    requires forall job :: job in jobs ==> JobOk(repo, journal.lanes, job)
    requires forall id :: id in journal.batches ==> id < firstBatch
    modifies journal
    ensures Valid(journal.Contents())
    ensures Reported(old(journal.lanes), journal.lanes, jobs, reports)
    ensures error.None? <==> |reports| == |jobs|
  {
    hide Valid;
    reports := [];
    for k := 0 to |jobs|
      invariant |reports| == k && Valid(journal.Contents())
      invariant Reported(old(journal.lanes), journal.lanes, jobs, reports)
      invariant forall id :: id in journal.batches ==> id < firstBatch + k
    {
      var job := jobs[k];
      assert JobOk(repo, old(journal.lanes), job);
      UntouchedLane(old(journal.lanes), journal.lanes, jobs, reports, k);
      ghost var mid := journal.lanes;
      var r := ProjectLane(repo, job, journal, cut, firstBatch + k, firstBatch + k, now, results, maxFileBytes);
      if r.Err? { return reports, Some(r.error); }
      ReportedNext(old(journal.lanes), mid, journal.lanes, jobs, reports, r.value);
      reports := reports + [r.value];
    }
    error := None;
  }
}
