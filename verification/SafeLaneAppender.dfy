/** append_bus_message_v1 as a program over a mutable branch: every backend call may find that others have pushed, or
    that an earlier update has landed, since the call before it. */
module SafeLaneAppender {
  import opened Wrappers
  import opened Text
  import opened CommitObjects
  import opened SafeLaneAppend

  // ---- The branch between two calls ----

  // The branch grew. Of the commits made here it took in at most those whose update was in flight.
  ghost predicate Moves(head: Commit, inFlight: set<Commit>, head': Commit, inFlight': set<Commit>, objects: set<Commit>) {
    && Ancestor(head, head') && inFlight' <= inFlight
    && forall c :: c in objects && Ancestor(c, head') ==> Ancestor(c, head) || (c in inFlight && Ancestor(head, c))
  }

  // Publishing c publishes nothing else that was made here.
  predicate AddsOnly(objects: set<Commit>, head: Commit, c: Commit) {
    Ancestor(head, c) && forall d :: d in objects && d != c && Ancestor(d, c) ==> Ancestor(d, head)
  }

  // What happens before a call and how the call is answered; any script of turns may be played.
  datatype Turn = Turn(push: Option<Commit>, late: Option<Commit>, lands: bool, mode: ReadMode, raises: bool, update: UpdateReply,
                       note: nat, control: Reply<Option<LaneBinding>>, history: Reply<History>, known: bool)

  const QUIET := Turn(None, None, false, ReadRaises, true, Rejected, 0, Raises, Raises, false)

  function AncestorsOf(c: Commit): (r: set<Commit>)
    ensures forall a :: a in r <==> Ancestor(a, c)
    decreases c, |c.parents| + 1
  {
    {c} + AncestorsOfParents(c, |c.parents|)
  }

  function AncestorsOfParents(c: Commit, n: nat): (r: set<Commit>)
    requires n <= |c.parents|
    ensures forall a :: a in r <==> exists i :: 0 <= i < n && Ancestor(a, c.parents[i])
    decreases c, n
  {
    if n == 0 then {} else AncestorsOfParents(c, n - 1) + AncestorsOf(c.parents[n - 1])
  }

  // The history is complete and true of the head; here as something that can be computed.
  predicate HistoryFits(head: Commit, h: History) {
    && (forall m :: m in h.messages ==> Fits(head, m))
    && (forall c :: c in AncestorsOf(head) ==>
          forall p :: p in c.tree && Introduces(c, p) && IsMessagePath(p) && ParseMessage(c.tree[p]).Ok? ==>
                        exists m :: m in h.messages && m.commit == c && m.path == p)
    && (forall id :: id in h.tips ==> IsTip(h.messages, id))
    && (forall m :: m in h.messages && IsTip(h.messages, m.messageId) ==> m.messageId in h.tips)
    && (forall i, j :: 0 <= i < j < |h.tips| ==> h.tips[i] != h.tips[j])
  }

  predicate Fits(head: Commit, m: CommittedMessage) {
    && Ancestor(m.commit, head) && Introduces(m.commit, m.path) && IsMessagePath(m.path)
    && ParseMessage(m.commit.tree[m.path]).Ok?
    && m.content == m.commit.tree[m.path]
    && m.messageId == ParseMessage(m.content).value.messageId
    && m.prev == ParseMessage(m.content).value.prev
  }

  predicate IsTip(messages: seq<CommittedMessage>, id: string) {
    (exists m :: m in messages && m.messageId == id) && (forall m :: m in messages ==> m.prev != Some(id))
  }

  lemma FittingIsTrue(head: Commit, h: History)
    requires HistoryFits(head, h)
    ensures TrueHistory(head, h)
  {
    hide ParseMessage;
    hide IsMessagePath;
    forall c, p | Carries(head, c, p)
      ensures exists m :: m in h.messages && m.commit == c && m.path == p
    {
      assert c in AncestorsOf(head);
    }
    forall id
      ensures id in h.tips <==> Tip(h.messages, id)
    {
      assert IsTip(h.messages, id) == Tip(h.messages, id);
    }
  }

  class GitBackend {
    var head: Commit
    var inFlight: set<Commit>
    var objects: set<Commit>
    var script: seq<Turn>

    constructor (head: Commit, script: seq<Turn>)
      ensures this.head == head && inFlight == {} && objects == {} && this.script == script
    {
      this.head, this.script := head, script;
      inFlight, objects := {}, {};
    }

    // The others' turn before each call: a push, then an update in flight that lands or is lost.
    method Turn() returns (turn: Turn)
      modifies this`head, this`inFlight, this`script
      ensures Moves(old(head), old(inFlight), head, inFlight, objects)
    {
      if script == [] { return QUIET; }
      turn := script[0];
      script := script[1..];
      if turn.push.Some? && Ancestor(head, turn.push.value) && forall c :: c in objects && Ancestor(c, turn.push.value) ==> Ancestor(c, head) {
        head := turn.push.value;
      }
      ghost var middle := head;
      if turn.late.Some? && turn.late.value in inFlight {
        inFlight := inFlight - {turn.late.value};
        if turn.lands && AddsOnly(objects, head, turn.late.value) { head := turn.late.value; }
      }
      TurnMoves(old(head), old(inFlight), middle, head, turn.late, objects);
    }

    method ReadBranchHead() returns (r: Reply<Option<Commit>>)
      modifies this`head, this`inFlight, this`script
      ensures Moves(old(head), old(inFlight), head, inFlight, objects)
      ensures r.Returns? && r.value.Some? ==> r.value.value == head
    {
      var turn := Turn();
      r := Read(turn.mode, head);
    }

    method IsAncestor(c: Commit, d: Commit) returns (r: Option<bool>)
      modifies this`head, this`inFlight, this`script
      ensures Moves(old(head), old(inFlight), head, inFlight, objects)
      ensures r.Some? ==> r.value == Ancestor(c, d)
    {
      var turn := Turn();
      r := if turn.known then Some(Ancestor(c, d)) else None;
    }

    method ReadControl() returns (r: Reply<Option<LaneBinding>>)
      modifies this`head, this`inFlight, this`script
      ensures Moves(old(head), old(inFlight), head, inFlight, objects)
    {
      var turn := Turn();
      r := turn.control;
    }

    method ReadHistory() returns (r: Reply<History>)
      modifies this`head, this`inFlight, this`script
      ensures Moves(old(head), old(inFlight), head, inFlight, objects)
      ensures r.Returns? && r.value.complete ==> TrueHistory(head, r.value)
    {
      var turn := Turn();
      r := turn.history;
      if r.Returns? && r.value.complete {
        if !HistoryFits(head, r.value) { return Raises; }
        FittingIsTrue(head, r.value);
      }
    }

    method ReadCommit(c: Commit) returns (r: Reply<Option<Commit>>)
      modifies this`head, this`inFlight, this`script
      ensures Moves(old(head), old(inFlight), head, inFlight, objects)
      ensures r.Returns? && r.value.Some? ==> r.value.value == c
    {
      var turn := Turn();
      r := Read(turn.mode, c);
    }

    method ReadFile(c: Commit, path: Path) returns (r: Reply<Option<string>>)
      modifies this`head, this`inFlight, this`script
      ensures Moves(old(head), old(inFlight), head, inFlight, objects)
      ensures r.Returns? && r.value.Some? ==> path in c.tree && r.value.value == c.tree[path]
    {
      var turn := Turn();
      r := if path in c.tree then Read(turn.mode, c.tree[path]) else if turn.raises then Raises else Returns(None);
    }

    // Whether a file is there, asked before anything is written: a file that is there is not overlooked.
    method FileExists(c: Commit, path: Path) returns (r: Reply<bool>)
      modifies this`head, this`inFlight, this`script
      ensures Moves(old(head), old(inFlight), head, inFlight, objects)
      ensures r.Returns? ==> r.value == (path in c.tree)
    {
      var turn := Turn();
      r := if turn.raises then Raises else Returns(path in c.tree);
    }

    // create_blob, create_tree and create_commit; the new commit's name is nobody else's.
    method CreateCommit(parent: Commit, path: Path, text: string) returns (r: Result<Commit, string>)
      modifies this
      ensures Moves(old(head), old(inFlight), head, inFlight, old(objects))
      ensures r.Ok? ==> && r.value == Commit([parent], parent.tree[path := text], r.value.note)
                        && r.value !in old(objects) && r.value !in inFlight && !Ancestor(r.value, head) && objects == old(objects) + {r.value}
      ensures r.Err? ==> objects == old(objects)
    {
      var turn := Turn();
      var c := Commit([parent], parent.tree[path := text], turn.note);
      if turn.raises { return Err("BLOB_CREATE_FAILED"); }
      if c in objects || c in inFlight || Ancestor(c, head) { return Err("COMMIT_CREATE_FAILED"); }
      objects := objects + {c};
      r := Ok(c);
    }

    // A non-force update moves the branch forward or not at all.
    method UpdateRef(c: Commit) returns (reply: UpdateReply)
      requires c in objects
      modifies this`head, this`inFlight, this`script
      ensures exists head', inFlight' :: Moves(old(head), old(inFlight), head', inFlight', objects) && Updated(head', inFlight', c, reply)
    {
      var turn := Turn();
      ghost var head', inFlight' := head, inFlight;
      reply := turn.update;
      if reply == Accepted || reply == RaisedLanded {
        if AddsOnly(objects, head, c) { head := c; } else { reply := if reply == Accepted then Rejected else RaisedLost; }
      } else if reply == RaisedPending {
        inFlight := inFlight + {c};
      }
      assert Updated(head', inFlight', c, reply);
    }

    // The branch after the answer of an update, from the branch that the update found.
    ghost predicate Updated(head': Commit, inFlight': set<Commit>, c: Commit, reply: UpdateReply)
      reads this
    {
      if LandsNow(reply) then AddsOnly(objects, head', c) && head == c && inFlight == inFlight'
      else head == head' && inFlight == (if reply == RaisedPending then inFlight' + {c} else inFlight')
    }
  }

  lemma TurnMoves(head: Commit, inFlight: set<Commit>, middle: Commit, head': Commit, late: Option<Commit>, objects: set<Commit>)
    requires Ancestor(head, middle) && forall c :: c in objects && Ancestor(c, middle) ==> Ancestor(c, head)
    requires head' == middle || (late.Some? && head' == late.value && late.value in inFlight && AddsOnly(objects, middle, late.value))
    ensures Ancestor(head, head')
    ensures forall c :: c in objects && Ancestor(c, head') ==> Ancestor(c, head) || (c in inFlight && Ancestor(head, c))
  {
    if head' != middle { AncestorTransitive(head, middle, head'); }
  }

  // ---- The append ----

  // What the session relies on is true of the branch, and its commit was made here.
  ghost predicate Stands(head: Commit, inFlight: set<Commit>, objects: set<Commit>, x: Session) {
    SessionOk(head, inFlight, x) && (CandidateOf(x.phase).Some? ==> CandidateOf(x.phase).value in objects)
  }

  lemma StandsStill(head: Commit, inFlight: set<Commit>, head': Commit, inFlight': set<Commit>, objects: set<Commit>, x: Session)
    requires Stands(head, inFlight, objects, x) && Moves(head, inFlight, head', inFlight', objects)
    ensures Stands(head', inFlight', objects, x)
  {
    hide SessionOk;
    SessionKept(head, inFlight, head', inFlight', x);
  }

  class SafeLaneAppender {
    const git: GitBackend

    constructor (git: GitBackend)
      ensures this.git == git
    {
      this.git := git;
    }

    /** The operation as a whole. Whatever the others did meanwhile, its error or receipt is true of the branch when it
        returns; the session names the parsed message and the expected head that the outcome is about. */
    method AppendBusMessage(identity: string, expected: Commit, text: string) returns (outcome: Outcome, made: Option<Commit>, x: Session)
      modifies git
      ensures x.identity == identity && x.expected == expected && x.text == text
      ensures x.phase == Finished(outcome, made) && OutcomeTrue(git.head, git.inFlight, x, outcome, made)
    {
      hide SessionOk;
      hide OutcomeTrue;
      x := Begin(identity, expected, text);
      BeginIsOk(git.head, git.inFlight, identity, expected, text);
      BeginFields(identity, expected, text);
      if x.phase.AtControl? { x := ReadLane(x); }
      if x.phase.AtPath? { x := BuildCommit(x); }
      if x.phase.AtRecheck? { x := MoveRef(x); }
      if x.phase.AtVerifyHead? { x := VerifyNew(x); }
      if x.phase.AtExisting? { x := ReconstructExisting(x); }
      outcome, made := x.phase.outcome, x.phase.made;
      FinishedIsTrue(git.head, git.inFlight, x);
    }

    // Control, head and history, up to the check of the predecessor.
    method ReadLane(start: Session) returns (x: Session)
      requires Stands(git.head, git.inFlight, git.objects, start) && start.phase.AtControl?
      modifies git
      ensures Stands(git.head, git.inFlight, git.objects, x) && x == start.(phase := x.phase)
      ensures x.phase.AtPath? || x.phase.AtExisting? || x.phase.Finished?
    {
      hide SessionOk;
      hide TrueHistory;
      hide Moves;
      hide Fold;
      hide PredecessorError;
      hide WithId;
      x := start;
      ghost var h, f := git.head, git.inFlight;
      var control := git.ReadControl();
      StandsStill(h, f, git.head, git.inFlight, git.objects, x);
      ControlKeepsOk(git.head, git.inFlight, x, control);
      x := x.(phase := AfterControl(x, control));
      if x.phase.Finished? { return; }

      h, f := git.head, git.inFlight;
      var head := git.ReadBranchHead();
      StandsStill(h, f, git.head, git.inFlight, git.objects, x);
      HeadKeepsOk(git.head, git.inFlight, x, head);
      x := x.(phase := AfterHead(x.phase.binding, head));
      if x.phase.Finished? { return; }

      h, f := git.head, git.inFlight;
      var history := git.ReadHistory();
      StandsStill(h, f, git.head, git.inFlight, git.objects, x);
      HistoryKeepsOk(git.head, git.inFlight, x, history);
      x := x.(phase := AfterHistory(x, x.phase.binding, x.phase.observed, git.head, history));
    }

    // The path must be free; then blob, tree and commit are created.
    method BuildCommit(start: Session) returns (x: Session)
      requires Stands(git.head, git.inFlight, git.objects, start) && start.phase.AtPath?
      modifies git
      ensures Stands(git.head, git.inFlight, git.objects, x) && x == start.(phase := x.phase)
      ensures x.phase.AtRecheck? || x.phase.Finished?
    {
      hide SessionOk;
      hide Moves;
      x := start;
      var path := PathOf(x.msg.messageId);
      ghost var h, f := git.head, git.inFlight;
      var present := git.FileExists(x.expected, path);
      StandsStill(h, f, git.head, git.inFlight, git.objects, x);
      PathKeepsOk(git.head, git.inFlight, x, present.Raises?);
      x := x.(phase := AfterPath(x, x.phase.binding, x.phase.seen, present.Raises?));
      if x.phase.Finished? { return; }

      h, f := git.head, git.inFlight;
      ghost var before := git.objects;
      var commit := git.CreateCommit(x.expected, path, x.text);
      StandsStill(h, f, git.head, git.inFlight, before, x);
      var note := if commit.Ok? then commit.value.note else 0;
      var failed := if commit.Ok? then None else Some(commit.error);
      if commit.Ok? {
        BuildKeepsOk(git.head, git.inFlight, x, note, None);
      }
      x := x.(phase := AfterBuild(x, x.phase.binding, x.phase.seen, note, failed));
      if commit.Err? { RefusedStands(git.head, git.inFlight, x, commit.error); }
    }

    // The topology once more, the update, and what became of it.
    method MoveRef(start: Session) returns (x: Session)
      requires Stands(git.head, git.inFlight, git.objects, start) && start.phase.AtRecheck?
      modifies git
      ensures Stands(git.head, git.inFlight, git.objects, x) && x == start.(phase := x.phase)
      ensures x.phase.AtVerifyHead? || x.phase.Finished?
    {
      hide SessionOk;
      x := UpdateBranch(start);
      if x.phase.AtObserve? { x := ObserveUpdate(x); }
    }

    method UpdateBranch(start: Session) returns (x: Session)
      requires Stands(git.head, git.inFlight, git.objects, start) && start.phase.AtRecheck?
      modifies git
      ensures Stands(git.head, git.inFlight, git.objects, x) && x == start.(phase := x.phase)
      ensures x.phase.AtObserve? || x.phase.Finished?
    {
      hide SessionOk;
      hide Moves;
      hide AddsOnly;
      x := start;
      var c := x.phase.candidate;
      ghost var h, f := git.head, git.inFlight;
      var control := git.ReadControl();
      StandsStill(h, f, git.head, git.inFlight, git.objects, x);
      RecheckKeepsOk(git.head, git.inFlight, x, control);
      x := x.(phase := AfterRecheck(x.phase.binding, x.phase.seen, c, control));
      if x.phase.Finished? { return; }

      h, f := git.head, git.inFlight;
      var reply := git.UpdateRef(c);
      ghost var head', inFlight' :| Moves(h, f, head', inFlight', git.objects) && git.Updated(head', inFlight', c, reply);
      StandsStill(h, f, head', inFlight', git.objects, x);
      UpdatedStands(head', inFlight', git.head, git.inFlight, git.objects, x, reply);
      x := x.(phase := AfterUpdate(x.phase.seen, c, reply));
    }

    method ObserveUpdate(start: Session) returns (x: Session)
      requires Stands(git.head, git.inFlight, git.objects, start) && start.phase.AtObserve?
      modifies git
      ensures Stands(git.head, git.inFlight, git.objects, x) && x == start.(phase := x.phase)
      ensures x.phase.AtVerifyHead? || x.phase.Finished?
    {
      hide SessionOk;
      hide Moves;
      x := start;
      var c := x.phase.candidate;
      ghost var h, f := git.head, git.inFlight;
      var seen := git.ReadBranchHead();
      StandsStill(h, f, git.head, git.inFlight, git.objects, x);
      h, f := git.head, git.inFlight;
      var reachable := None;
      if x.phase.raised && seen.Returns? && seen.value.Some? && seen.value.value != c {
        reachable := git.IsAncestor(c, seen.value.value);
      } else {
        MovesNot(git.head, git.inFlight, git.objects);
      }
      ObserveKeepsOk(h, f, x, seen, reachable);
      x := x.(phase := AfterObserve(x, c, x.phase.raised, x.phase.moved, seen, reachable));
      StandsStill(h, f, git.head, git.inFlight, git.objects, x);
    }

    // Readback of a new append.
    method VerifyNew(start: Session) returns (x: Session)
      requires Stands(git.head, git.inFlight, git.objects, start) && start.phase.AtVerifyHead?
      modifies git
      ensures Stands(git.head, git.inFlight, git.objects, x) && x == start.(phase := x.phase) && x.phase.Finished?
    {
      hide SessionOk;
      hide Moves;
      hide ChangedPaths;
      x := start;
      var c, path := x.phase.candidate, PathOf(x.msg.messageId);
      ghost var h, f := git.head, git.inFlight;
      var head := git.ReadBranchHead();
      StandsStill(h, f, git.head, git.inFlight, git.objects, x);
      VerifyHeadKeepsOk(git.head, git.inFlight, x, head);
      x := x.(phase := AfterVerifyHead(c, head));
      if x.phase.Finished? { return; }

      h, f := git.head, git.inFlight;
      var commit := git.ReadCommit(c);
      StandsStill(h, f, git.head, git.inFlight, git.objects, x);
      h, f := git.head, git.inFlight;
      var file: Reply<Option<string>> := Returns(None);
      if commit == Returns(Some(c)) {
        file := git.ReadFile(c, path);
        StandsStill(h, f, git.head, git.inFlight, git.objects, x);
      }
      VerifyKeepsOk(git.head, git.inFlight, x, commit, file);
      VerifiedTrue(x, c, commit, file);
      x := x.(phase := AfterVerifyObjects(x, c, commit, file));
      if x.phase.Finished? { return; }

      h, f := git.head, git.inFlight;
      var control := git.ReadControl();
      StandsStill(h, f, git.head, git.inFlight, git.objects, x);
      ReceiptKeepsOk(git.head, git.inFlight, x, control.Raises?);
      x := x.(phase := AfterFinalControl(x, c, control.Raises?));
    }

    // The receipt of a message that is already on the lane.
    method ReconstructExisting(start: Session) returns (x: Session)
      requires Stands(git.head, git.inFlight, git.objects, start) && start.phase.AtExisting?
      modifies git
      ensures Stands(git.head, git.inFlight, git.objects, x) && x == start.(phase := x.phase) && x.phase.Finished?
    {
      hide SessionOk;
      hide Moves;
      hide ChangedPaths;
      hide ParseMessage;
      x := start;
      var m := x.phase.existing;
      ghost var h, f := git.head, git.inFlight;
      var commit := git.ReadCommit(m.commit);
      StandsStill(h, f, git.head, git.inFlight, git.objects, x);
      h, f := git.head, git.inFlight;
      var file := git.ReadFile(m.commit, m.path);
      StandsStill(h, f, git.head, git.inFlight, git.objects, x);
      ExistingKeepsOk(git.head, git.inFlight, x, commit, file);
      x := x.(phase := AfterExisting(x, m, commit, file));
      if x.phase.Finished? { return; }

      h, f := git.head, git.inFlight;
      var control := git.ReadControl();
      StandsStill(h, f, git.head, git.inFlight, git.objects, x);
      ExistingReceiptKeepsOk(git.head, git.inFlight, x, control.Raises?);
      x := x.(phase := AfterExistingControl(x, m, x.phase.parent, control.Raises?));
    }
  }

  lemma BeginFields(identity: string, expected: Commit, text: string)
    ensures var x := Begin(identity, expected, text);
            x.identity == identity && x.expected == expected && x.text == text && (x.phase.AtControl? || x.phase.Finished?)
  {
  }

  lemma FinishedIsTrue(head: Commit, inFlight: set<Commit>, x: Session)
    requires SessionOk(head, inFlight, x) && x.phase.Finished?
    ensures OutcomeTrue(head, inFlight, x, x.phase.outcome, x.phase.made)
  {
  }

  lemma RefusedStands(head: Commit, inFlight: set<Commit>, x: Session, code: string)
    requires x.phase == Refuse(code)
    ensures SessionOk(head, inFlight, x)
  {
  }

  lemma MovesNot(head: Commit, inFlight: set<Commit>, objects: set<Commit>)
    ensures Moves(head, inFlight, head, inFlight, objects)
  {
  }

  // The branch that the update found, with the answer applied.
  lemma UpdatedStands(head: Commit, inFlight: set<Commit>, head': Commit, inFlight': set<Commit>, objects: set<Commit>, x: Session, reply: UpdateReply)
    requires Stands(head, inFlight, objects, x) && x.phase.AtUpdate?
    requires if LandsNow(reply) then AddsOnly(objects, head, x.phase.candidate) && head' == x.phase.candidate && inFlight' == inFlight
             else head' == head && inFlight' == (if reply == RaisedPending then inFlight + {x.phase.candidate} else inFlight)
    ensures Stands(head', inFlight', objects, x.(phase := AfterUpdate(x.phase.seen, x.phase.candidate, reply)))
  {
    hide SessionOk;
    var c := x.phase.candidate;
    NotInFlight(head, inFlight, x);
    if LandsNow(reply) {
      UpdateLands(head, inFlight, x, reply);
      assert inFlight - {c} == inFlight;
    } else {
      UpdateWaits(head, inFlight, x, reply);
      if reply == RaisedPending { RaisedAddsPending(head, inFlight, x.(phase := AfterUpdate(x.phase.seen, c, reply)), c); }
    }
  }

  lemma NotInFlight(head: Commit, inFlight: set<Commit>, x: Session)
    requires SessionOk(head, inFlight, x) && x.phase.AtUpdate?
    ensures x.phase.candidate !in inFlight
  {
  }
}
