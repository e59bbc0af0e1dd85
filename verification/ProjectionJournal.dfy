/** The fenced projection journal (reconciliation_journal.py): one durable cursor per lane, leased
    batch claims, per-file results, and finalization by compare-and-set on the cursor. */
module ProjectionJournal {
  import opened Wrappers
  import opened Sequences
  import opened CommitGraph

  type Path = string
  type BatchId = nat

  datatype Lane = Lane(identity: string, branch: string)

  // The control commit and topology blob that a claim is bound to.
  datatype Cut = Cut(control: nat, topology: nat)

  datatype FileState = Pending | Projected | Idempotent | Failed | Conflict

  datatype Claim = Claim(batchId: BatchId, token: nat, lane: Lane, expected: Option<Sha>, target: Sha,
                         cut: Cut, leaseExpires: int)

  datatype Batch = Batch(claim: Claim, files: map<Path, FileState>, complete: bool, finalized: Option<Sha>)

  datatype JournalError =
    | InvalidTime
    | InvalidLease
    | InvalidBatchFiles
    | DuplicateBatchFile
    | InvalidFileState
    | LaneStateAlreadySeeded
    | LaneUnseeded
    | ProjectedBaseChanged
    | ControlCutChanged
    | ClaimBusy
    | StaleClaim
    | BatchAlreadyComplete
    | UnknownBatchFile
    | BatchFileResultConflict
    | UnresolvedBatchFiles

  // The four tables of the journal.
  datatype State = State(lanes: map<Lane, Option<Sha>>, cuts: map<Lane, Cut>,
                         batches: map<BatchId, Batch>, active: map<Lane, BatchId>)

  predicate TerminalSuccess(s: FileState) {
    s == Projected || s == Idempotent
  }

  predicate Resolved(files: map<Path, FileState>) {
    forall p :: p in files ==> TerminalSuccess(files[p])
  }

  // ---- What each operation does to the state ----

  function AfterSeed(s: State, lane: Lane, head: Option<Sha>): Result<State, JournalError> {
    if lane in s.lanes && s.lanes[lane] != head then Err(LaneStateAlreadySeeded)
    else Ok(s.(lanes := s.lanes[lane := head]))
  }

  function AfterControlCut(s: State, lane: Lane, cut: Cut): Result<State, JournalError> {
    if lane !in s.lanes then Err(LaneUnseeded) else Ok(s.(cuts := s.cuts[lane := cut]))
  }

  function AfterClaim(s: State, claim: Claim, files: seq<Path>, now: int, lease: int): Result<State, JournalError> {
    var lane := claim.lane;
    if now < 0 then Err(InvalidTime)
    else if lease <= 0 then Err(InvalidLease)
    else if exists i :: 0 <= i < |files| && files[i] == "" then Err(InvalidBatchFiles)
    else if !Distinct(files) then Err(DuplicateBatchFile)
    else if lane !in s.lanes then Err(LaneUnseeded)
    else if s.lanes[lane] != claim.expected then Err(ProjectedBaseChanged)
    else if lane !in s.cuts || s.cuts[lane] != claim.cut then Err(ControlCutChanged)
    else if Busy(s, lane, now) then Err(ClaimBusy)
    else Ok(s.(batches := s.batches[claim.batchId := Batch(claim, map p | p in files :: Pending, false, None)],
               active := s.active[lane := claim.batchId]))
  }

  // The lane's last claim still holds its lease.
  predicate Busy(s: State, lane: Lane, now: int) {
    && lane in s.active && s.active[lane] in s.batches
    && !s.batches[s.active[lane]].complete
    && now < s.batches[s.active[lane]].claim.leaseExpires
  }

  predicate Holds(s: State, claim: Claim) {
    claim.batchId in s.batches && s.batches[claim.batchId].claim.token == claim.token
  }

  predicate Active(s: State, claim: Claim) {
    claim.lane in s.active && s.active[claim.lane] == claim.batchId
  }

  function AfterRecord(s: State, claim: Claim, path: Path, result: FileState): Result<State, JournalError> {
    if result == Pending then Err(InvalidFileState)
    else if !Holds(s, claim) then Err(StaleClaim)
    else
      var b := s.batches[claim.batchId];
      if !Active(s, claim) && !b.complete then Err(StaleClaim)
      else if b.complete then Err(BatchAlreadyComplete)
      else if path !in b.files then Err(UnknownBatchFile)
      else if b.files[path] != Pending && b.files[path] != result then Err(BatchFileResultConflict)
      else Ok(s.(batches := s.batches[claim.batchId := b.(files := b.files[path := result])]))
  }

  function AfterFinalize(s: State, claim: Claim, now: int): Result<State, JournalError> {
    if now < 0 then Err(InvalidTime)
    else if Holds(s, claim) && s.batches[claim.batchId].complete then Ok(s)
    else if !Holds(s, claim) || !Active(s, claim) then Err(StaleClaim)
    else if now >= claim.leaseExpires then Err(StaleClaim)
    else if claim.lane !in s.cuts || s.cuts[claim.lane] != claim.cut then Err(ControlCutChanged)
    else if claim.lane !in s.lanes then Err(LaneUnseeded)
    else if s.lanes[claim.lane] != claim.expected then Err(ProjectedBaseChanged)
    else
      var b := s.batches[claim.batchId];
      if !Resolved(b.files) then Err(UnresolvedBatchFiles)
      else Ok(State(s.lanes[claim.lane := Some(claim.target)],
                    s.cuts,
                    s.batches[claim.batchId := b.(complete := true, finalized := Some(claim.target))],
                    s.active - {claim.lane}))
  }

  // ---- Invariant of every reachable journal ----

  ghost predicate Valid(s: State) {
    && (forall id :: id in s.batches ==>
                       && s.batches[id].claim.batchId == id
                       && s.batches[id].claim.lane in s.lanes
                       && (s.batches[id].complete ==>
                             && s.batches[id].finalized == Some(s.batches[id].claim.target)
                             && Resolved(s.batches[id].files)))
    && (forall lane :: lane in s.active ==>
                         && s.active[lane] in s.batches
                         && s.batches[s.active[lane]].claim.lane == lane
                         && !s.batches[s.active[lane]].complete)
    && (forall lane :: lane in s.cuts ==> lane in s.lanes)
  }

  // A claim the journal issued: whoever holds a batch's token holds the claim as it was issued.
  predicate Issued(s: State, claim: Claim) {
    Holds(s, claim) ==> s.batches[claim.batchId].claim == claim
  }

  // ---- The journal object ----

  class Journal {
    var lanes: map<Lane, Option<Sha>>
    var cuts: map<Lane, Cut>
    var batches: map<BatchId, Batch>
    var active: map<Lane, BatchId>

    ghost function Contents(): State
      reads this
    {
      State(lanes, cuts, batches, active)
    }

    constructor ()
      ensures Contents() == State(map[], map[], map[], map[]) && Valid(Contents())
    {
      lanes, cuts, batches, active := map[], map[], map[], map[];
    }

    method SeedLaneState(lane: Lane, head: Option<Sha>) returns (error: Option<JournalError>)
      requires Valid(Contents())
      modifies this
      ensures Valid(Contents())
      ensures error.None? ==> AfterSeed(old(Contents()), lane, head) == Ok(Contents())
      ensures error.Some? ==> AfterSeed(old(Contents()), lane, head) == Err(error.value) && unchanged(this)
    {
      if lane in lanes && lanes[lane] != head { return Some(LaneStateAlreadySeeded); }
      lanes := lanes[lane := head];
      return None;
    }

    method SetControlCut(lane: Lane, cut: Cut) returns (error: Option<JournalError>)
      requires Valid(Contents())
      modifies this
      ensures Valid(Contents())
      ensures error.None? ==> AfterControlCut(old(Contents()), lane, cut) == Ok(Contents())
      ensures error.Some? ==> AfterControlCut(old(Contents()), lane, cut) == Err(error.value) && unchanged(this)
    {
      if lane !in lanes { return Some(LaneUnseeded); }
      cuts := cuts[lane := cut];
      return None;
    }

    // batchId and token stand for the two uuids drawn for the claim.
    method ClaimBatch(lane: Lane, expected: Option<Sha>, target: Sha, cut: Cut, files: seq<Path>, now: int, lease: int,
                      batchId: BatchId, token: nat)
      returns (r: Result<Claim, JournalError>)
      requires Valid(Contents()) && batchId !in batches
      modifies this
      ensures Valid(Contents())
      ensures r.Ok? ==> && r.value == Claim(batchId, token, lane, expected, target, cut, now + lease)
                        && AfterClaim(old(Contents()), r.value, files, now, lease) == Ok(Contents())
      ensures r.Err? ==> && unchanged(this)
                         && AfterClaim(old(Contents()), Claim(batchId, token, lane, expected, target, cut, now + lease),
                                       files, now, lease) == Err(r.error)
    {
      if now < 0 { return Err(InvalidTime); }
      if lease <= 0 { return Err(InvalidLease); }
      if exists i :: 0 <= i < |files| && files[i] == "" { return Err(InvalidBatchFiles); }
      if !Distinct(files) { return Err(DuplicateBatchFile); }
      if lane !in lanes { return Err(LaneUnseeded); }
      if lanes[lane] != expected { return Err(ProjectedBaseChanged); }
      if lane !in cuts || cuts[lane] != cut { return Err(ControlCutChanged); }
      if lane in active {
        var previous := batches[active[lane]];
        if !previous.complete && now < previous.claim.leaseExpires { return Err(ClaimBusy); }
      }
      var claim := Claim(batchId, token, lane, expected, target, cut, now + lease);
      batches := batches[batchId := Batch(claim, map p | p in files :: Pending, false, None)];
      active := active[lane := batchId];
      return Ok(claim);
    }

    method RecordForCurrentClaim(claim: Claim) returns (r: Result<Batch, JournalError>)
      ensures r == (if !Holds(Contents(), claim) || (!Active(Contents(), claim) && !batches[claim.batchId].complete)
                    then Err(StaleClaim) else Ok(batches[claim.batchId]))
    {
      if claim.batchId !in batches || batches[claim.batchId].claim.token != claim.token { return Err(StaleClaim); }
      var record := batches[claim.batchId];
      if !(claim.lane in active && active[claim.lane] == claim.batchId) {
        if record.complete { return Ok(record); }
        return Err(StaleClaim);
      }
      return Ok(record);
    }

    method RecordFileResult(claim: Claim, path: Path, result: FileState) returns (error: Option<JournalError>)
      requires Valid(Contents()) && Issued(Contents(), claim)
      modifies this
      ensures Valid(Contents())
      ensures error.None? ==> AfterRecord(old(Contents()), claim, path, result) == Ok(Contents())
      ensures error.Some? ==> AfterRecord(old(Contents()), claim, path, result) == Err(error.value) && unchanged(this)
    {
      if result == Pending { return Some(InvalidFileState); }
      var current := RecordForCurrentClaim(claim);
      if current.Err? { return Some(current.error); }
      var record := current.value;
      if record.complete { return Some(BatchAlreadyComplete); }
      if path !in record.files { return Some(UnknownBatchFile); }
      if record.files[path] != Pending && record.files[path] != result { return Some(BatchFileResultConflict); }
      batches := batches[claim.batchId := record.(files := record.files[path := result])];
      return None;
    }

    method FinalizeBatch(claim: Claim, now: int) returns (r: Result<Sha, JournalError>)
      requires Valid(Contents()) && Issued(Contents(), claim)
      modifies this
      ensures Valid(Contents())
      ensures r.Ok? ==> AfterFinalize(old(Contents()), claim, now) == Ok(Contents()) && r.value == claim.target
      ensures r.Err? ==> AfterFinalize(old(Contents()), claim, now) == Err(r.error) && unchanged(this)
    {
      if now < 0 { return Err(InvalidTime); }
      if claim.batchId in batches && batches[claim.batchId].complete && batches[claim.batchId].claim.token == claim.token {
        return Ok(batches[claim.batchId].finalized.value);
      }
      var current := RecordForCurrentClaim(claim);
      if current.Err? { return Err(current.error); }
      if now >= claim.leaseExpires { return Err(StaleClaim); }
      if claim.lane !in cuts || cuts[claim.lane] != claim.cut { return Err(ControlCutChanged); }
      if claim.lane !in lanes { return Err(LaneUnseeded); }
      if lanes[claim.lane] != claim.expected { return Err(ProjectedBaseChanged); }
      if !Resolved(current.value.files) { return Err(UnresolvedBatchFiles); }
      lanes := lanes[claim.lane := Some(claim.target)];
      batches := batches[claim.batchId := current.value.(complete := true, finalized := Some(claim.target))];
      active := active - {claim.lane};
      return Ok(claim.target);
    }
  }

  // ---- Whole runs of journal operations ----

  datatype Op =
    | OpSeed(lane: Lane, head: Option<Sha>)
    | OpControlCut(lane: Lane, cut: Cut)
    | OpClaim(claim: Claim, files: seq<Path>, now: int, lease: int)
    | OpRecord(claim: Claim, path: Path, result: FileState)
    | OpFinalize(claim: Claim, now: int)

  function Apply(s: State, op: Op): Result<State, JournalError> {
    match op
    case OpSeed(lane, head) => AfterSeed(s, lane, head)
    case OpControlCut(lane, cut) => AfterControlCut(s, lane, cut)
    case OpClaim(claim, files, now, lease) => AfterClaim(s, claim, files, now, lease)
    case OpRecord(claim, path, result) => AfterRecord(s, claim, path, result)
    case OpFinalize(claim, now) => AfterFinalize(s, claim, now)
  }

  // An operation that is refused leaves the journal as it was.
  function Step(s: State, op: Op): State {
    var r := Apply(s, op);
    if r.Ok? then r.value else s
  }

  // The uuids of a new claim are fresh; every other claim is one the journal issued.
  predicate Legal(s: State, op: Op) {
    match op
    case OpClaim(claim, _, now, lease) => claim.batchId !in s.batches && claim.leaseExpires == now + lease
    case OpRecord(claim, _, _) => Issued(s, claim)
    case OpFinalize(claim, _) => Issued(s, claim)
    case _ => true
  }

  function Run(s: State, ops: seq<Op>): State
    decreases |ops|
  {
    if ops == [] then s else Run(Step(s, ops[0]), ops[1..])
  }

  predicate LegalRun(s: State, ops: seq<Op>)
    decreases |ops|
  {
    ops == [] || (Legal(s, ops[0]) && LegalRun(Step(s, ops[0]), ops[1..]))
  }

  const EMPTY := State(map[], map[], map[], map[])

  lemma ClaimValid(s: State, claim: Claim, files: seq<Path>, now: int, lease: int)
    requires Valid(s) && claim.batchId !in s.batches
    ensures AfterClaim(s, claim, files, now, lease).Ok? ==> Valid(AfterClaim(s, claim, files, now, lease).value)
  {
    hide Distinct;
    hide Resolved;
  }

  lemma RecordValid(s: State, claim: Claim, path: Path, result: FileState)
    requires Valid(s) && Issued(s, claim)
    ensures AfterRecord(s, claim, path, result).Ok? ==> Valid(AfterRecord(s, claim, path, result).value)
  {
    hide Resolved;
  }

  lemma FinalizeValid(s: State, claim: Claim, now: int)
    requires Valid(s) && Issued(s, claim)
    ensures AfterFinalize(s, claim, now).Ok? ==> Valid(AfterFinalize(s, claim, now).value)
  {
    hide Resolved;
  }

  lemma StepValid(s: State, op: Op)
    requires Valid(s) && Legal(s, op)
    ensures Valid(Step(s, op))
  {
    match op {
      case OpClaim(claim, files, now, lease) => ClaimValid(s, claim, files, now, lease);
      case OpRecord(claim, path, result) => RecordValid(s, claim, path, result);
      case OpFinalize(claim, now) => FinalizeValid(s, claim, now);
      case _ =>
    }
    hide AfterClaim;
    hide AfterRecord;
    hide AfterFinalize;
  }

  // A claim that was replaced before it completed.
  predicate Superseded(s: State, id: BatchId) {
    id in s.batches && !s.batches[id].complete && !Active(s, s.batches[id].claim)
  }

  lemma SupersededStep(s: State, op: Op, id: BatchId)
    requires Valid(s) && Legal(s, op) && Superseded(s, id)
    ensures Superseded(Step(s, op), id) && Step(s, op).batches[id] == s.batches[id]
  {
    hide Resolved;
    hide Distinct;
  }

  // Fencing: a superseded batch is frozen for good. No later operation, by any caller, records one of
  // its files or completes it.
  lemma {:induction false} SupersededForever(s: State, ops: seq<Op>, id: BatchId)
    requires Valid(s) && LegalRun(s, ops) && Superseded(s, id)
    ensures Superseded(Run(s, ops), id) && Run(s, ops).batches[id] == s.batches[id]
    decreases |ops|
  {
    hide Valid;
    hide Legal;
    hide Step;
    if ops != [] {
      StepValid(s, ops[0]);
      SupersededStep(s, ops[0], id);
      SupersededForever(Step(s, ops[0]), ops[1..], id);
    }
  }

  predicate Broken(s: State, id: BatchId, p: Path) {
    id in s.batches && !s.batches[id].complete && p in s.batches[id].files && s.batches[id].files[p] in {Failed, Conflict}
  }

  lemma BrokenStep(s: State, op: Op, id: BatchId, p: Path)
    requires Valid(s) && Legal(s, op) && Broken(s, id, p)
    ensures Broken(Step(s, op), id, p) && Step(s, op).batches[id].files[p] == s.batches[id].files[p]
  {
    hide Distinct;
  }

  // A batch with a failed or conflicting file never completes, and that result is never overwritten.
  lemma {:induction false} BrokenForever(s: State, ops: seq<Op>, id: BatchId, p: Path)
    requires Valid(s) && LegalRun(s, ops) && Broken(s, id, p)
    ensures Broken(Run(s, ops), id, p) && Run(s, ops).batches[id].files[p] == s.batches[id].files[p]
    decreases |ops|
  {
    hide Valid;
    hide Legal;
    hide Step;
    if ops != [] {
      StepValid(s, ops[0]);
      BrokenStep(s, ops[0], id, p);
      BrokenForever(Step(s, ops[0]), ops[1..], id, p);
    }
  }

  lemma CompleteStep(s: State, op: Op, id: BatchId)
    requires Valid(s) && Legal(s, op) && id in s.batches && s.batches[id].complete
    ensures id in Step(s, op).batches && Step(s, op).batches[id] == s.batches[id]
  {
    hide Resolved;
    hide Distinct;
  }

  // A completed batch is immutable, and finalizing it again is accepted and changes nothing.
  lemma {:induction false} CompleteForever(s: State, ops: seq<Op>, id: BatchId, now: int)
    requires Valid(s) && LegalRun(s, ops) && now >= 0
    requires id in s.batches && s.batches[id].complete
    ensures var t := Run(s, ops);
            && id in t.batches && t.batches[id] == s.batches[id]
            && AfterFinalize(t, s.batches[id].claim, now) == Ok(t)
    decreases |ops|
  {
    hide Legal;
    hide Step;
    if ops != [] {
      StepValid(s, ops[0]);
      CompleteStep(s, ops[0], id);
      CompleteForever(Step(s, ops[0]), ops[1..], id, now);
    }
  }

  // ---- The cursor as the history of its finalizations ----

  // The operation completes a batch of the lane.
  predicate Completes(s: State, op: Op, lane: Lane) {
    && op.OpFinalize? && op.claim.lane == lane
    && AfterFinalize(s, op.claim, op.now).Ok?
    && op.claim.batchId in s.batches && !s.batches[op.claim.batchId].complete
  }

  function Finalizations(s: State, ops: seq<Op>, lane: Lane): seq<Claim>
    decreases |ops|
  {
    if ops == [] then []
    else (if Completes(s, ops[0], lane) then [ops[0].claim] else []) + Finalizations(Step(s, ops[0]), ops[1..], lane)
  }

  // Each claim expected the cursor that the one before it left.
  predicate Chained(start: Option<Sha>, claims: seq<Claim>)
    decreases |claims|
  {
    claims == [] || (claims[0].expected == start && Chained(Some(claims[0].target), claims[1..]))
  }

  function ChainEnd(start: Option<Sha>, claims: seq<Claim>): Option<Sha> {
    if claims == [] then start else Some(claims[|claims| - 1].target)
  }

  // One operation moves a seeded cursor exactly when it completes a batch of that lane, and then from
  // the head the claim expected to the head it targeted.
  lemma CursorStep(s: State, op: Op, lane: Lane)
    requires Valid(s) && Legal(s, op) && lane in s.lanes
    ensures lane in Step(s, op).lanes && (Completes(s, op, lane) ==> op.OpFinalize?)
    ensures if Completes(s, op, lane)
            then s.lanes[lane] == op.claim.expected && Step(s, op).lanes[lane] == Some(op.claim.target)
            else Step(s, op).lanes[lane] == s.lanes[lane]
  {
  }

  lemma {:induction false} CursorIsHistory(s: State, ops: seq<Op>, lane: Lane)
    requires Valid(s) && LegalRun(s, ops) && lane in s.lanes
    ensures Chained(s.lanes[lane], Finalizations(s, ops, lane))
    ensures lane in Run(s, ops).lanes
    ensures Run(s, ops).lanes[lane] == ChainEnd(s.lanes[lane], Finalizations(s, ops, lane))
    decreases |ops|
  {
    hide Valid;
    hide Legal;
    hide Step;
    hide Completes;
    if ops != [] {
      var t := Step(s, ops[0]);
      StepValid(s, ops[0]);
      CursorStep(s, ops[0], lane);
      CursorIsHistory(t, ops[1..], lane);
      var rest := Finalizations(t, ops[1..], lane);
      if Completes(s, ops[0], lane) {
        assert ([ops[0].claim] + rest)[1..] == rest;
      } else {
        assert [] + rest == rest;
      }
    }
  }

  // A batch that completes was open, and is complete from then on.
  lemma CompletesOpen(s: State, op: Op, lane: Lane)
    requires Completes(s, op, lane)
    ensures op.OpFinalize? && op.claim.batchId in s.batches && !s.batches[op.claim.batchId].complete
    ensures var t := Step(s, op); op.claim.batchId in t.batches && t.batches[op.claim.batchId].complete
  {
  }

  lemma {:induction false} FinalizedWereOpen(s: State, ops: seq<Op>, lane: Lane, c: Claim)
    requires Valid(s) && LegalRun(s, ops) && c in Finalizations(s, ops, lane)
    ensures c.batchId in s.batches ==> !s.batches[c.batchId].complete
    decreases |ops|
  {
    hide Valid;
    hide Legal;
    hide Step;
    hide Completes;
    var rest := Finalizations(Step(s, ops[0]), ops[1..], lane);
    if Completes(s, ops[0], lane) { CompletesOpen(s, ops[0], lane); }
    StepValid(s, ops[0]);
    if c in rest {
      FinalizedWereOpen(Step(s, ops[0]), ops[1..], lane, c);
      if c.batchId in s.batches && s.batches[c.batchId].complete { CompleteStep(s, ops[0], c.batchId); }
    }
  }

  // No batch moves the cursor twice, however often its finalization is replayed.
  lemma {:induction false} FinalizedOnce(s: State, ops: seq<Op>, lane: Lane, i: nat, j: nat)
    requires Valid(s) && LegalRun(s, ops)
    requires i < j < |Finalizations(s, ops, lane)|
    ensures Finalizations(s, ops, lane)[i].batchId != Finalizations(s, ops, lane)[j].batchId
    decreases |ops|
  {
    var t := Step(s, ops[0]);
    var rest := Finalizations(t, ops[1..], lane);
    StepValid(s, ops[0]);
    if Completes(s, ops[0], lane) {
      if i == 0 {
        assert rest[j - 1] in rest;
        FinalizedWereOpen(t, ops[1..], lane, rest[j - 1]);
      } else {
        FinalizedOnce(t, ops[1..], lane, i - 1, j - 1);
      }
    } else {
      FinalizedOnce(t, ops[1..], lane, i, j);
    }
  }
}
