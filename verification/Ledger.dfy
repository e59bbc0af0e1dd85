/** The assignment ledger (schema.sql, ledger.py): transition rules, the validating, guarding and applying
    triggers, and the facade over them. A column that may be NULL is an Option. */
module Ledger {
  import opened Wrappers

  // Text stands for a value of a state column that names no state.
  datatype State =
    | Drafted | Assigned | Acknowledged | Running | ReviewPending | Paused | Interrupted | HandedOff
    | ChangesRequested | Stopped | Confirmed | Superseded | Text(text: string)

  datatype Actor = Coordinator | Producer | Reviewer | Operator

  datatype Action =
    | NoAction | SetPause | ResumePause | SetInterrupt | SetInterruptFromPause | RecoverInterrupt
    | ClearContext | MarkSuperseded

  // Other stands for an id that is not in the table.
  datatype TransitionType =
    | Assign | Acknowledge | Start | RequestReview | Confirm | ChangesRequest | Correct | Handoff
    | ReopenHandoff | PauseFromAcknowledged | PauseFromRunning | PauseFromReviewPending | ResumeToAcknowledged
    | ResumeToRunning | ResumeToReviewPending | InterruptFromAcknowledged | InterruptFromRunning
    | InterruptFromReviewPending | InterruptFromPaused | RecoverToAcknowledged | RecoverToRunning
    | RecoverToReviewPending | RecoverToPaused | StopFromDrafted | StopFromAssigned | StopFromAcknowledged
    | StopFromRunning | StopFromReviewPending | StopFromPaused | StopFromInterrupted | StopFromHandedOff
    | StopFromChangesRequested | Supersede | Other(name: string)

  datatype Rule = Rule(from: State, to: State, actor: Actor, action: Action)

  // The transition_rules table.
  function RuleOf(t: TransitionType): Option<Rule> {
    match t
    case Assign => Some(Rule(Drafted, Assigned, Coordinator, NoAction))
    case Acknowledge => Some(Rule(Assigned, Acknowledged, Producer, NoAction))
    case Start => Some(Rule(Acknowledged, Running, Producer, NoAction))
    case RequestReview => Some(Rule(Running, ReviewPending, Producer, NoAction))
    case Confirm => Some(Rule(ReviewPending, Confirmed, Reviewer, ClearContext))
    case ChangesRequest => Some(Rule(ReviewPending, ChangesRequested, Reviewer, ClearContext))
    case Correct => Some(Rule(ChangesRequested, Running, Producer, ClearContext))
    case Handoff => Some(Rule(Running, HandedOff, Producer, NoAction))
    case ReopenHandoff => Some(Rule(HandedOff, Running, Coordinator, NoAction))
    case PauseFromAcknowledged => Some(Rule(Acknowledged, Paused, Operator, SetPause))
    case PauseFromRunning => Some(Rule(Running, Paused, Operator, SetPause))
    case PauseFromReviewPending => Some(Rule(ReviewPending, Paused, Operator, SetPause))
    case ResumeToAcknowledged => Some(Rule(Paused, Acknowledged, Operator, ResumePause))
    case ResumeToRunning => Some(Rule(Paused, Running, Operator, ResumePause))
    case ResumeToReviewPending => Some(Rule(Paused, ReviewPending, Operator, ResumePause))
    case InterruptFromAcknowledged => Some(Rule(Acknowledged, Interrupted, Operator, SetInterrupt))
    case InterruptFromRunning => Some(Rule(Running, Interrupted, Operator, SetInterrupt))
    case InterruptFromReviewPending => Some(Rule(ReviewPending, Interrupted, Operator, SetInterrupt))
    case InterruptFromPaused => Some(Rule(Paused, Interrupted, Operator, SetInterruptFromPause))
    case RecoverToAcknowledged => Some(Rule(Interrupted, Acknowledged, Operator, RecoverInterrupt))
    case RecoverToRunning => Some(Rule(Interrupted, Running, Operator, RecoverInterrupt))
    case RecoverToReviewPending => Some(Rule(Interrupted, ReviewPending, Operator, RecoverInterrupt))
    case RecoverToPaused => Some(Rule(Interrupted, Paused, Operator, RecoverInterrupt))
    case StopFromDrafted => Some(Rule(Drafted, Stopped, Operator, ClearContext))
    case StopFromAssigned => Some(Rule(Assigned, Stopped, Operator, ClearContext))
    case StopFromAcknowledged => Some(Rule(Acknowledged, Stopped, Operator, ClearContext))
    case StopFromRunning => Some(Rule(Running, Stopped, Operator, ClearContext))
    case StopFromReviewPending => Some(Rule(ReviewPending, Stopped, Operator, ClearContext))
    case StopFromPaused => Some(Rule(Paused, Stopped, Operator, ClearContext))
    case StopFromInterrupted => Some(Rule(Interrupted, Stopped, Operator, ClearContext))
    case StopFromHandedOff => Some(Rule(HandedOff, Stopped, Operator, ClearContext))
    case StopFromChangesRequested => Some(Rule(ChangesRequested, Stopped, Operator, ClearContext))
    case Supersede => Some(Rule(Drafted, Superseded, Coordinator, MarkSuperseded))
    case Other(_) => None
  }

  function ActionOf(t: TransitionType): Option<Action> {
    if RuleOf(t).Some? then Some(RuleOf(t).value.action) else None
  }

  // ---- The tables ----

  datatype Row = Row(id: string, workflow: string, mode: string, state: State, current: Option<int>,
                     prePause: Option<State>, preInterrupt: Option<State>, nestedPause: Option<State>,
                     supersededBy: Option<string>, createdAt: int)

  datatype TransitionEvent = TransitionEvent(assignment: string, kind: TransitionType, actor: Actor, from: State, to: State,
                                             predecessor: Option<int>, operation: string, target: Option<string>)

  datatype Receipt = Receipt(assignment: string, mode: string, pass: bool, readback: bool)

  // Event ids count from 1 in order of insertion.
  datatype Books = Books(assignments: map<string, Row>, events: seq<TransitionEvent>, receipts: map<string, Receipt>)

  const MODES: set<string> := {"NATIVE_MULTI_AGENT", "FALLBACK_COORDINATOR_RELAY"}

  // A CHECK passes unless it is false; a comparison with NULL is not false.
  predicate ChecksPass(r: Row) {
    && r.id != "" && r.workflow != "" && r.mode in MODES && r.createdAt >= 0
    && !r.state.Text?
    && (r.state == Paused <==> r.prePause.Some?)
    && (r.state == Interrupted <==> r.preInterrupt.Some?)
    && (r.nestedPause.None? || (r.state == Interrupted && (r.preInterrupt.None? || r.preInterrupt == Some(Paused))))
    && (r.supersededBy.None? || r.state == Superseded)
  }

  predicate IsEventOf(b: Books, id: int, assignment: string) {
    1 <= id <= |b.events| && b.events[id - 1].assignment == assignment
  }

  function Coalesce<T>(value: Option<T>, otherwise: T): T {
    if value.Some? then value.value else otherwise
  }

  // transition_event_validate_before_insert: the code it aborts with, if any.
  function ValidateError(b: Books, e: TransitionEvent): Option<string> {
    var rule := RuleOf(e.kind);
    var row := if e.assignment in b.assignments then Some(b.assignments[e.assignment]) else None;
    if row.None? || row.value.state != e.from || rule.None? || rule.value.from != e.from || rule.value.to != e.to || rule.value.actor != e.actor then
      Some("ILLEGAL_TRANSITION")
    else if Coalesce(row.value.current, -1) != Coalesce(e.predecessor, -1) then Some("STALE_PREDECESSOR")
    else if e.predecessor.Some? && !IsEventOf(b, e.predecessor.value, e.assignment) then Some("CROSS_ASSIGNMENT_PREDECESSOR")
    else if e.kind == Supersede && (e.target.None? || e.target.value == e.assignment || e.target.value !in b.assignments) then
      Some("INVALID_SUPERSESSION_TARGET")
    else if e.kind != Supersede && e.target.Some? then Some("UNEXPECTED_TARGET_ASSIGNMENT")
    else if rule.value.action == ResumePause && row.value.prePause.Some? && e.to != row.value.prePause.value then
      Some("PAUSE_RESUME_TARGET_MISMATCH")
    else if rule.value.action == RecoverInterrupt && row.value.preInterrupt.Some? && e.to != row.value.preInterrupt.value then
      Some("INTERRUPT_RECOVERY_TARGET_MISMATCH")
    else None
  }

  // assignment_projection_guard_before_update on one row, then the row's own constraints.
  function UpdateError(b: Books, before: Row, after: Row): Option<string> {
    if after.id != before.id || after.workflow != before.workflow || after.mode != before.mode || after.createdAt != before.createdAt then
      Some("IMMUTABLE_ASSIGNMENT_IDENTITY")
    else if ProjectionChanged(before, after) && !(exists k :: 0 <= k < |b.events| && Backs(b.events[k], k + 1, before, after)) then
      Some("PROJECTION_REQUIRES_BOUND_TRANSITION")
    else if !ChecksPass(after) then Some("CHECK")
    else if after.current.Some? && !(1 <= after.current.value <= |b.events|) then Some("FOREIGN KEY")
    else if after.supersededBy.Some? && after.supersededBy.value !in b.assignments then Some("FOREIGN KEY")
    else None
  }

  predicate ProjectionChanged(before: Row, after: Row) {
    || after.state != before.state
    || Coalesce(after.current, -1) != Coalesce(before.current, -1)
    || Coalesce(after.prePause, Text("")) != Coalesce(before.prePause, Text(""))
    || Coalesce(after.preInterrupt, Text("")) != Coalesce(before.preInterrupt, Text(""))
    || Coalesce(after.nestedPause, Text("")) != Coalesce(before.nestedPause, Text(""))
    || Coalesce(after.supersededBy, "") != Coalesce(before.supersededBy, "")
  }

  // The event with this id explains the change of the row.
  predicate Backs(e: TransitionEvent, id: int, before: Row, after: Row) {
    && after.current == Some(id) && e.assignment == before.id && e.predecessor == before.current
    && e.from == before.state && e.to == after.state
    && (after.supersededBy == before.supersededBy || (e.kind == Supersede && e.target.Some? && after.supersededBy == e.target))
  }

  // transition_apply_after_insert: the row after an event with this id.
  function Projected(row: Row, e: TransitionEvent, id: int): Row {
    var action := ActionOf(e.kind);
    row.(
      state := e.to,
      current := Some(id),
      prePause :=
        if action == Some(SetPause) then Some(e.from)
        else if action == Some(RecoverInterrupt) && row.preInterrupt == Some(Paused) then row.nestedPause
        else None,
      preInterrupt :=
        if action == Some(SetInterrupt) then Some(e.from)
        else if action == Some(SetInterruptFromPause) then Some(Paused)
        else None,
      nestedPause := if action == Some(SetInterruptFromPause) then row.prePause else None,
      supersededBy := if e.kind == Supersede then e.target else row.supersededBy)
  }

  // ---- The statements, each a transaction ----

  datatype Op =
    | InsertRow(row: Row)
    | InsertEvent(event: TransitionEvent)
    | UpdateRow(id: string, row: Row)
    | RecordAcceptance(receipt: Receipt)

  // INSERT INTO assignments. No trigger looks at it; the row's own constraints do, and a row may name itself.
  function PutRow(b: Books, row: Row): Result<Books, string> {
    if row.id in b.assignments then Err("UNIQUE")
    else if !ChecksPass(row) then Err("CHECK")
    else if row.current.Some? && !(1 <= row.current.value <= |b.events|) then Err("FOREIGN KEY")
    else if row.supersededBy.Some? && row.supersededBy.value !in b.assignments && row.supersededBy.value != row.id then Err("FOREIGN KEY")
    else Ok(b.(assignments := b.assignments[row.id := row]))
  }

  // The row of create_assignment: all but the named columns have their defaults.
  function NewRow(id: string, workflow: string, mode: string, createdAt: int): Row {
    Row(id, workflow, mode, Drafted, None, None, None, None, None, createdAt)
  }

  predicate IsNew(row: Row) {
    row == NewRow(row.id, row.workflow, row.mode, row.createdAt)
  }

  function Insert(b: Books, e: TransitionEvent): Result<Books, string> {
    if ValidateError(b, e).Some? then Err(ValidateError(b, e).value)
    else if exists k :: 0 <= k < |b.events| && b.events[k].assignment == e.assignment && b.events[k].operation == e.operation then Err("UNIQUE")
    else
      var c := b.(events := b.events + [e]);
      var before := b.assignments[e.assignment];
      var after := Projected(before, e, |c.events|);
      var error := UpdateError(c, before, after);
      if error.Some? then Err(error.value) else Ok(c.(assignments := c.assignments[e.assignment := after]))
  }

  function Update(b: Books, id: string, row: Row): Result<Books, string> {
    if id !in b.assignments then Ok(b)
    else
      var error := UpdateError(b, b.assignments[id], row);
      if error.Some? then Err(error.value) else Ok(b.(assignments := b.assignments[id := row]))
  }

  function Accept(b: Books, r: Receipt): Result<Books, string> {
    if !(r.assignment in b.assignments && b.assignments[r.assignment].state == Confirmed && b.assignments[r.assignment].mode == r.mode) then
      Err("ACCEPTANCE_ASSIGNMENT_MODE_OR_STATE_MISMATCH")
    else if r.pass && !r.readback then Err("PASS_REQUIRES_READBACK")
    else if r.assignment in b.receipts then Err("UNIQUE")
    else Ok(b.(receipts := b.receipts[r.assignment := r]))
  }

  function Exec(b: Books, op: Op): Result<Books, string> {
    match op
    case InsertRow(row) => PutRow(b, row)
    case InsertEvent(e) => Insert(b, e)
    case UpdateRow(id, row) => Update(b, id, row)
    case RecordAcceptance(r) => Accept(b, r)
  }

  // A statement that fails changes nothing.
  function Next(b: Books, op: Op): Books {
    var r := Exec(b, op);
    if r.Ok? then r.value else b
  }

  function Run(b: Books, ops: seq<Op>): Books
    decreases |ops|
  {
    if ops == [] then b else Run(Next(b, ops[0]), ops[1..])
  }

  const EMPTY := Books(map[], [], map[])

  // ---- What the event log means ----

  // A stack of the states to return to: a pause or an interrupt pushes, a resume or a recovery pops.
  datatype Progress = Progress(state: State, stack: seq<State>, current: Option<int>, supersededBy: Option<string>)

  function Advance(p: Progress, e: TransitionEvent, id: int): Progress {
    var stack :=
      match ActionOf(e.kind)
      case Some(SetPause) => p.stack + [e.from]
      case Some(SetInterrupt) => p.stack + [e.from]
      case Some(SetInterruptFromPause) => p.stack + [e.from]
      case Some(ResumePause) => if p.stack == [] then [] else p.stack[..|p.stack| - 1]
      case Some(RecoverInterrupt) => if p.stack == [] then [] else p.stack[..|p.stack| - 1]
      case Some(ClearContext) => []
      case _ => p.stack;
    Progress(e.to, stack, Some(id), if e.kind == Supersede then e.target else p.supersededBy)
  }

  // The fold of one assignment's events.
  function Replay(events: seq<TransitionEvent>, assignment: string): Progress {
    if events == [] then Progress(Drafted, [], None, None)
    else
      var before, last := Replay(events[..|events| - 1], assignment), events[|events| - 1];
      if last.assignment == assignment then Advance(before, last, |events|) else before
  }

  predicate Working(s: State) {
    s == Acknowledged || s == Running || s == ReviewPending
  }

  // One state to return to from a pause; one from an interrupt, or the pause and what it paused.
  predicate StackOk(state: State, stack: seq<State>) {
    match state
    case Paused => |stack| == 1 && Working(stack[0])
    case Interrupted => (|stack| == 1 && Working(stack[0])) || (|stack| == 2 && Working(stack[0]) && stack[1] == Paused)
    case _ => stack == []
  }

  // The row's three context columns spell out the stack.
  predicate Shows(row: Row, p: Progress) {
    && row.state == p.state && row.current == p.current && row.supersededBy == p.supersededBy
    && row.prePause == (if p.state == Paused && |p.stack| == 1 then Some(p.stack[0]) else None)
    && row.preInterrupt == (if p.state == Interrupted && p.stack != [] then Some(p.stack[|p.stack| - 1]) else None)
    && row.nestedPause == (if p.state == Interrupted && |p.stack| == 2 then Some(p.stack[0]) else None)
  }

  predicate RowOk(b: Books, id: string)
    requires id in b.assignments
  {
    var row, p := b.assignments[id], Replay(b.events, id);
    row.id == id && Shows(row, p) && StackOk(p.state, p.stack) && ChecksPass(row)
    && (p.supersededBy.Some? <==> p.state == Superseded)
    && (p.supersededBy.Some? ==> p.supersededBy.value in b.assignments)
  }

  // Every event continues from what the events before it left.
  predicate EventOk(b: Books, k: nat)
    requires k < |b.events|
  {
    var e := b.events[k];
    e.assignment in b.assignments && e.predecessor == Replay(b.events[..k], e.assignment).current
  }

  predicate ReceiptOk(b: Books, id: string)
    requires id in b.receipts
  {
    var r := b.receipts[id];
    && r.assignment == id && id in b.assignments && b.assignments[id].state == Confirmed && b.assignments[id].mode == r.mode
    && (r.pass ==> r.readback)
  }

  ghost predicate Inv(b: Books) {
    && (forall id :: id in b.assignments ==> RowOk(b, id))
    && (forall k :: 0 <= k < |b.events| ==> EventOk(b, k))
    && (forall id :: id in b.receipts ==> ReceiptOk(b, id))
  }

  lemma {:induction false} ReplayCurrent(events: seq<TransitionEvent>, assignment: string)
    ensures var c := Replay(events, assignment).current;
            && (c.Some? ==> 1 <= c.value <= |events| && events[c.value - 1].assignment == assignment)
            && (forall k :: (if c.None? then 0 else c.value) <= k < |events| ==> events[k].assignment != assignment)
  {
    if events != [] { ReplayCurrent(events[..|events| - 1], assignment); }
  }

  lemma ReplayAppend(events: seq<TransitionEvent>, e: TransitionEvent, assignment: string)
    ensures Replay(events + [e], assignment)
         == if e.assignment == assignment then Advance(Replay(events, assignment), e, |events| + 1) else Replay(events, assignment)
  {
    assert (events + [e])[..|events|] == events;
  }

  /** The trigger's three-column update is the push or pop of the stack, whatever the accepted event. */
  lemma ProjectionIsAdvance(b: Books, e: TransitionEvent)
    requires e.assignment in b.assignments && RowOk(b, e.assignment) && ValidateError(b, e).None?
    ensures var row, p := b.assignments[e.assignment], Replay(b.events, e.assignment);
            var q := Advance(p, e, |b.events| + 1);
            && Shows(Projected(row, e, |b.events| + 1), q) && StackOk(q.state, q.stack)
            && (q.supersededBy.Some? <==> q.state == Superseded)
            && (q.supersededBy.Some? ==> q.supersededBy.value in b.assignments)
            && ChecksPass(Projected(row, e, |b.events| + 1))
  {
    ProjectionShows(b, e);
    var p := Replay(b.events, e.assignment);
    var row := b.assignments[e.assignment];
    hide Replay;
    hide RuleOf;
    hide Advance;
    ShownRowPasses(row, Projected(row, e, |b.events| + 1), Advance(p, e, |b.events| + 1));
  }

  // What an event that passes the validation agrees with.
  lemma ValidMeans(b: Books, e: TransitionEvent)
    requires e.assignment in b.assignments && ValidateError(b, e).None?
    ensures var row := b.assignments[e.assignment];
            && RuleOf(e.kind).Some? && RuleOf(e.kind).value == Rule(row.state, e.to, e.actor, RuleOf(e.kind).value.action)
            && e.from == row.state
            && (e.kind == Supersede ==> e.target.Some? && e.target.value in b.assignments) && (e.kind != Supersede ==> e.target.None?)
            && (ActionOf(e.kind) == Some(ResumePause) && row.prePause.Some? ==> e.to == row.prePause.value)
            && (ActionOf(e.kind) == Some(RecoverInterrupt) && row.preInterrupt.Some? ==> e.to == row.preInterrupt.value)
  {
    hide RuleOf;
  }

  // What the rules of each kind have in common.
  predicate Shaped(t: TransitionType, rule: Rule) {
    ShapedEnds(t, rule) && ShapedAction(rule)
  }

  predicate ShapedEnds(t: TransitionType, rule: Rule) {
    && !rule.to.Text? && !Final(rule.from)
    && (t == Supersede <==> rule.action == MarkSuperseded) && (rule.to == Superseded <==> t == Supersede)
  }

  predicate ShapedAction(rule: Rule) {
    match rule.action
    case SetPause => Working(rule.from) && rule.to == Paused
    case SetInterrupt => Working(rule.from) && rule.to == Interrupted
    case SetInterruptFromPause => rule.from == Paused && rule.to == Interrupted
    case ResumePause => rule.from == Paused && Working(rule.to)
    case RecoverInterrupt => rule.from == Interrupted && (Working(rule.to) || rule.to == Paused)
    case ClearContext => rule.to != Paused && rule.to != Interrupted
    case _ => rule.from != Paused && rule.from != Interrupted && rule.to != Paused && rule.to != Interrupted
  }

  lemma RulesAreShaped(t: TransitionType)
    ensures RuleOf(t).Some? ==> Shaped(t, RuleOf(t).value)
  {
    RuleEnds(t);
    RuleActions(t);
    hide RuleOf;
  }

  lemma RuleEnds(t: TransitionType)
    ensures RuleOf(t).Some? ==> ShapedEnds(t, RuleOf(t).value)
  {
  }

  lemma RuleActions(t: TransitionType)
    ensures RuleOf(t).Some? ==> ShapedAction(RuleOf(t).value)
  {
  }

  predicate Final(s: State) {
    s == Stopped || s == Confirmed || s == Superseded
  }

  lemma ProjectionShows(b: Books, e: TransitionEvent)
    requires e.assignment in b.assignments && RowOk(b, e.assignment) && ValidateError(b, e).None?
    ensures var row, p := b.assignments[e.assignment], Replay(b.events, e.assignment);
            var q := Advance(p, e, |b.events| + 1);
            && Shows(Projected(row, e, |b.events| + 1), q) && StackOk(q.state, q.stack) && !q.state.Text?
            && (q.supersededBy.Some? <==> q.state == Superseded)
            && (q.supersededBy.Some? ==> q.supersededBy.value in b.assignments)
  {
    hide Replay;
    hide ChecksPass;
    hide RuleOf;
    ValidMeans(b, e);
    hide ValidateError;
    RulesAreShaped(e.kind);
  }

  // A row that shows a well-formed stack passes its CHECKs.
  lemma ShownRowPasses(before: Row, after: Row, q: Progress)
    requires ChecksPass(before) && Shows(after, q) && StackOk(q.state, q.stack) && !q.state.Text?
    requires after.id == before.id && after.workflow == before.workflow && after.mode == before.mode && after.createdAt == before.createdAt
    requires q.supersededBy.Some? ==> q.state == Superseded
    ensures ChecksPass(after)
  {
  }


  // ---- Every statement keeps the invariant ----

  predicate Unused(b: Books, assignment: string, operation: string) {
    forall k :: 0 <= k < |b.events| ==> !(b.events[k].assignment == assignment && b.events[k].operation == operation)
  }

  /** An event that the validation accepts, with an unused operation id, is never stopped by the guard or a CHECK. */
  lemma AcceptedEventApplies(b: Books, e: TransitionEvent)
    requires Inv(b) && ValidateError(b, e).None?
    requires Unused(b, e.assignment, e.operation)
    ensures Insert(b, e).Ok?
  {
    hide Replay;
    hide RuleOf;
    hide EventOk;
    hide ReceiptOk;
    hide Advance;
    hide StackOk;
    assert RowOk(b, e.assignment);
    ProjectionIsAdvance(b, e);
    ReplayCurrent(b.events, e.assignment);
    var c, n := b.(events := b.events + [e]), |b.events|;
    var before := b.assignments[e.assignment];
    assert c.events[n] == e;
    assert Backs(c.events[n], n + 1, before, Projected(before, e, n + 1)) by { SamePredecessor(b, e); }
  }

  lemma SamePredecessor(b: Books, e: TransitionEvent)
    requires ValidateError(b, e).None? && RowOk(b, e.assignment)
    ensures e.predecessor == b.assignments[e.assignment].current
    ensures e.from == b.assignments[e.assignment].state
  {
    ReplayCurrent(b.events, e.assignment);
    hide Replay;
    hide RuleOf;
  }

  lemma ValidKnown(b: Books, e: TransitionEvent)
    requires ValidateError(b, e).None?
    ensures e.assignment in b.assignments
  {
    hide RuleOf;
  }

  lemma InsertMeans(b: Books, e: TransitionEvent)
    requires Inv(b)
    ensures Insert(b, e).Ok? <==> ValidateError(b, e).None? && Unused(b, e.assignment, e.operation)
    ensures Insert(b, e).Ok? ==> InsertShape(b, e, Insert(b, e).value)
  {
    hide Inv;
    hide UpdateError;
    hide ValidateError;
    hide RuleOf;
    hide Projected;
    if ValidateError(b, e).None? {
      ValidKnown(b, e);
      if Unused(b, e.assignment, e.operation) { AcceptedEventApplies(b, e); }
    }
    if Insert(b, e).Ok? { ProjectedState(b.assignments[e.assignment], e, |b.events| + 1); }
  }

  predicate InsertShape(b: Books, e: TransitionEvent, c: Books) {
    && c.events == b.events + [e] && c.receipts == b.receipts && c.assignments.Keys == b.assignments.Keys
    && e.assignment in b.assignments && c.assignments[e.assignment].state == e.to
  }

  lemma ProjectedState(row: Row, e: TransitionEvent, id: int)
    ensures Projected(row, e, id).state == e.to
  {
  }

  lemma InsertKeepsRow(b: Books, e: TransitionEvent, id: string)
    requires Inv(b) && Insert(b, e).Ok? && id in b.assignments
    ensures RowOk(Insert(b, e).value, id)
  {
    hide RuleOf;
    assert RowOk(b, id);
    ReplayAppend(b.events, e, id);
    if id == e.assignment { ProjectionIsAdvance(b, e); }
    hide Replay;
    hide Advance;
    hide StackOk;
  }

  lemma InsertKeepsEvents(b: Books, e: TransitionEvent, k: nat)
    requires Inv(b) && Insert(b, e).Ok? && k <= |b.events|
    ensures EventOk(Insert(b, e).value, k)
  {
    hide RuleOf;
    hide RowOk;
    hide ReceiptOk;
    hide Projected;
    InsertMeans(b, e);
    hide Insert;
    hide ValidateError;
    var c := Insert(b, e).value;
    assert c.events[..k] == b.events[..k];
    if k < |b.events| {
      assert EventOk(b, k);
    } else {
      NewEventOk(b, e);
      assert b.events[..k] == b.events;
    }
  }

  lemma InsertKeepsReceipts(b: Books, e: TransitionEvent, id: string)
    requires Inv(b) && Insert(b, e).Ok? && id in b.receipts
    ensures ReceiptOk(Insert(b, e).value, id)
  {
    assert ReceiptOk(b, id);
    hide RuleOf;
    hide Projected;
    hide RowOk;
    if e.assignment == id { ConfirmedIsFinal(b, e); }
  }

  lemma InsertKeepsInv(b: Books, e: TransitionEvent)
    requires Inv(b) && Insert(b, e).Ok?
    ensures Inv(Insert(b, e).value)
  {
    hide RuleOf;
    hide Projected;
    hide RowOk;
    hide EventOk;
    hide ReceiptOk;
    hide ValidateError;
    InsertMeans(b, e);
    hide Insert;
    var c := Insert(b, e).value;
    assert forall id :: id in c.receipts ==> id in b.receipts;
    forall id | id in c.assignments
      ensures RowOk(c, id)
    {
      InsertKeepsRow(b, e, id);
    }
    forall k | 0 <= k < |c.events|
      ensures EventOk(c, k)
    {
      InsertKeepsEvents(b, e, k);
    }
    forall id | id in c.receipts
      ensures ReceiptOk(c, id)
    {
      InsertKeepsReceipts(b, e, id);
    }
  }

  lemma NewEventOk(b: Books, e: TransitionEvent)
    requires Inv(b) && ValidateError(b, e).None?
    ensures e.assignment in b.assignments && e.predecessor == Replay(b.events, e.assignment).current
  {
    assert RowOk(b, e.assignment);
    SamePredecessor(b, e);
  }

  // No rule leaves a final state.
  lemma ConfirmedIsFinal(b: Books, e: TransitionEvent)
    requires e.assignment in b.assignments && Final(b.assignments[e.assignment].state)
    ensures ValidateError(b, e) == Some("ILLEGAL_TRANSITION")
  {
  }

  lemma NewRowKeepsInv(b: Books, row: Row)
    requires Inv(b) && PutRow(b, row).Ok? && IsNew(row)
    ensures Inv(PutRow(b, row).value)
  {
    var c := PutRow(b, row).value;
    NoEventsYet(b, row.id);
    forall k | 0 <= k < |c.events| ensures EventOk(c, k) { assert EventOk(b, k); }
    forall i | i in c.assignments ensures RowOk(c, i) { if i != row.id { assert RowOk(b, i); } }
    forall i | i in c.receipts ensures ReceiptOk(c, i) { assert ReceiptOk(b, i); }
  }

  /** The schema lets a row be inserted with any columns that pass its CHECKs. The row is the fold of its events, as
      the others are, exactly if they are the columns that create_assignment gives it. */
  lemma InsertRowKeepsInvIff(b: Books, row: Row)
    requires Inv(b) && PutRow(b, row).Ok?
    ensures Inv(PutRow(b, row).value) <==> IsNew(row)
  {
    if IsNew(row) {
      NewRowKeepsInv(b, row);
    }
    if Inv(PutRow(b, row).value) { OnlyNewRowsFit(b, row); }
  }

  lemma OnlyNewRowsFit(b: Books, row: Row)
    requires Inv(b) && PutRow(b, row).Ok? && Inv(PutRow(b, row).value)
    ensures IsNew(row)
  {
    NoEventsYet(b, row.id);
    assert RowOk(PutRow(b, row).value, row.id);
  }

  lemma NoEventsYet(b: Books, id: string)
    requires Inv(b) && id !in b.assignments
    ensures Replay(b.events, id) == Progress(Drafted, [], None, None)
  {
    forall k | 0 <= k < |b.events| ensures b.events[k].assignment != id { assert EventOk(b, k); }
    ReplayNothing(b.events, id);
  }

  lemma {:induction false} ReplayNothing(events: seq<TransitionEvent>, id: string)
    requires forall k :: 0 <= k < |events| ==> events[k].assignment != id
    ensures Replay(events, id) == Progress(Drafted, [], None, None)
  {
    if events != [] { ReplayNothing(events[..|events| - 1], id); }
  }

  // The event that a row stands on has no event after it, so none can back a change.
  lemma NothingBacks(b: Books, id: string, after: Row, k: nat)
    requires Inv(b) && id in b.assignments && k < |b.events|
    ensures !Backs(b.events[k], k + 1, b.assignments[id], after)
  {
    assert RowOk(b, id) && EventOk(b, k);
    ReplayCurrent(b.events, id);
    ReplayCurrent(b.events[..k], id);
    var current := b.assignments[id].current;
    hide Replay;
    if current.Some? && current.value <= k { assert b.events[k].assignment != id; }
  }

  /** A direct UPDATE of a row of a reachable ledger succeeds only if it changes nothing. */
  lemma DirectUpdateChangesNothing(b: Books, id: string, row: Row)
    requires Inv(b) && Update(b, id, row).Ok?
    ensures Update(b, id, row).value == b
  {
    if id in b.assignments {
      var before := b.assignments[id];
      forall k | 0 <= k < |b.events|
        ensures !Backs(b.events[k], k + 1, before, row)
      {
        NothingBacks(b, id, row, k);
      }
      assert RowOk(b, id);
      if before.supersededBy.Some? { assert RowOk(b, before.supersededBy.value); }
      ReplayCurrent(b.events, id);
      hide Replay;
      UnchangedColumns(before, row);
      assert b.assignments[id := before] == b.assignments;
    }
  }

  // Where COALESCE takes two values for the same, the constraints leave one of them.
  lemma UnchangedColumns(before: Row, after: Row)
    requires ChecksPass(before) && ChecksPass(after) && !ProjectionChanged(before, after)
    requires after.id == before.id && after.workflow == before.workflow && after.mode == before.mode && after.createdAt == before.createdAt
    requires after.current.Some? ==> 1 <= after.current.value
    requires before.current.Some? ==> 1 <= before.current.value
    requires before.state == Interrupted && before.preInterrupt == Some(Paused) ==> before.nestedPause.Some?
    requires before.state == Superseded ==> before.supersededBy.Some?
    requires before.nestedPause != Some(Text("")) && before.supersededBy != Some("")
    ensures after == before
  {
  }


  lemma AcceptKeepsInv(b: Books, r: Receipt)
    requires Inv(b) && Accept(b, r).Ok?
    ensures Inv(Accept(b, r).value)
  {
    var c := Accept(b, r).value;
    forall id | id in c.assignments ensures RowOk(c, id) { assert RowOk(b, id); }
    forall k | 0 <= k < |c.events| ensures EventOk(c, k) { assert EventOk(b, k); }
    forall id | id in c.receipts ensures ReceiptOk(c, id) { if id != r.assignment { assert ReceiptOk(b, id); } }
  }

  // Rows come into the table by create_assignment.
  predicate Plain(op: Op) {
    op.InsertRow? ==> IsNew(op.row)
  }

  lemma NextKeepsInv(b: Books, op: Op)
    requires Inv(b) && Plain(op)
    ensures Inv(Next(b, op))
  {
    hide Inv;
    hide PutRow;
    hide Insert;
    hide Update;
    hide Accept;
    if Exec(b, op).Ok? {
      match op {
        case InsertRow(row) => NewRowKeepsInv(b, row);
        case InsertEvent(e) => InsertKeepsInv(b, e);
        case UpdateRow(id, row) => DirectUpdateChangesNothing(b, id, row);
        case RecordAcceptance(r) => AcceptKeepsInv(b, r);
      }
    }
  }

  // ---- Main results ----

  lemma {:induction false} RunKeepsInv(b: Books, ops: seq<Op>)
    requires Inv(b) && forall i :: 0 <= i < |ops| ==> Plain(ops[i])
    ensures Inv(Run(b, ops))
    decreases |ops|
  {
    hide Inv;
    hide Next;
    hide Plain;
    if ops != [] {
      NextKeepsInv(b, ops[0]);
      assert forall i :: 0 <= i < |ops[1..]| ==> ops[1..][i] == ops[i + 1];
      RunKeepsInv(Next(b, ops[0]), ops[1..]);
    }
  }

  /** In every reachable ledger each row is the fold of its events, its context columns spell out a stack of at
      most two states, every event continues from its assignment's last one, and receipts are of confirmed
      assignments alone. */
  lemma ReachableInv(ops: seq<Op>)
    requires forall i :: 0 <= i < |ops| ==> Plain(ops[i])
    ensures Inv(Run(EMPTY, ops))
  {
    hide Inv;
    hide Run;
    EmptyInv();
    RunKeepsInv(EMPTY, ops);
  }

  lemma EmptyInv()
    ensures Inv(EMPTY)
  {
  }

  // ---- Rows inserted with any columns ----

  predicate RowSound(b: Books, id: string)
    requires id in b.assignments
  {
    var row := b.assignments[id];
    && row.id == id && ChecksPass(row)
    && (row.current.Some? ==> 1 <= row.current.value <= |b.events|)
    && (row.supersededBy.Some? ==> row.supersededBy.value in b.assignments)
  }

  // What the declared constraints alone say of the table.
  ghost predicate SchemaOk(b: Books) {
    forall id :: id in b.assignments ==> RowSound(b, id)
  }

  lemma InsertKeepsSchema(b: Books, e: TransitionEvent)
    requires SchemaOk(b) && Insert(b, e).Ok?
    ensures SchemaOk(Insert(b, e).value)
  {
    hide ChecksPass;
    hide RuleOf;
    hide ProjectionChanged;
    hide Backs;
    var c := Insert(b, e).value;
    forall id | id in c.assignments
      ensures RowSound(c, id)
    {
      assert RowSound(b, id);
    }
  }

  lemma {:induction false} RunKeepsSchema(b: Books, ops: seq<Op>)
    requires SchemaOk(b)
    ensures SchemaOk(Run(b, ops))
    decreases |ops|
  {
    if ops != [] {
      hide Next;
      NextKeepsSchema(b, ops[0]);
      RunKeepsSchema(Next(b, ops[0]), ops[1..]);
    }
  }

  lemma NextKeepsSchema(b: Books, op: Op)
    requires SchemaOk(b)
    ensures SchemaOk(Next(b, op))
  {
    hide ChecksPass;
    hide ProjectionChanged;
    hide Backs;
    hide Insert;
    if op.InsertEvent? {
      if Insert(b, op.event).Ok? { InsertKeepsSchema(b, op.event); }
    } else {
      var c := Next(b, op);
      forall id | id in c.assignments
        ensures RowSound(c, id)
      {
        assert id in b.assignments ==> RowSound(b, id);
      }
    }
  }

  // A recovery to PAUSED of a row that does not say what was paused.
  predicate LosesPause(row: Row, e: TransitionEvent) {
    ActionOf(e.kind) == Some(RecoverInterrupt) && e.to == Paused && row.nestedPause.None?
  }

  lemma ProjectedPasses(b: Books, e: TransitionEvent)
    requires e.assignment in b.assignments && RowSound(b, e.assignment) && ValidateError(b, e).None?
    ensures var row := b.assignments[e.assignment];
            && (ChecksPass(Projected(row, e, |b.events| + 1)) <==> !LosesPause(row, e))
            && var successor := Projected(row, e, |b.events| + 1).supersededBy; successor.Some? ==> successor.value in b.assignments
  {
    hide RuleOf;
    ValidMeans(b, e);
    hide ValidateError;
    RulesAreShaped(e.kind);
  }

  /** With rows inserted in any way, an event that the validation accepts, with an unused operation id, goes in
      exactly if it is no recovery to PAUSED of a row without nested_pause_state. */
  lemma AcceptedEventAppliesIff(b: Books, e: TransitionEvent)
    requires SchemaOk(b) && ValidateError(b, e).None? && Unused(b, e.assignment, e.operation)
    ensures e.assignment in b.assignments
    ensures Insert(b, e).Ok? <==> !LosesPause(b.assignments[e.assignment], e)
  {
    hide RuleOf;
    hide ChecksPass;
    hide ValidateError;
    ValidKnown(b, e);
    var c, n := b.(events := b.events + [e]), |b.events|;
    var before := b.assignments[e.assignment];
    assert RowSound(b, e.assignment);
    ProjectedPasses(b, e);
    SoundPredecessor(b, e);
    ProjectedState(before, e, n + 1);
    assert c.events[n] == e;
    assert Backs(c.events[n], n + 1, before, Projected(before, e, n + 1));
  }

  lemma SoundPredecessor(b: Books, e: TransitionEvent)
    requires ValidateError(b, e).None? && RowSound(b, e.assignment)
    ensures e.predecessor == b.assignments[e.assignment].current && e.from == b.assignments[e.assignment].state
    ensures e.kind == Supersede ==> e.target.Some?
  {
    hide RuleOf;
    hide ChecksPass;
  }

  // Such a row passes every CHECK, and the validation accepts its recovery; the recovered row then fails its CHECK.
  lemma UnknownPauseIsLost()
    ensures var row := Row("a", "w", "NATIVE_MULTI_AGENT", Interrupted, None, None, Some(Paused), None, None, 0);
            var e := TransitionEvent("a", RecoverToPaused, Operator, Interrupted, Paused, None, "o", None);
            && PutRow(EMPTY, row).Ok? && ValidateError(PutRow(EMPTY, row).value, e).None?
            && Insert(PutRow(EMPTY, row).value, e) == Err("CHECK")
  {
    var row := Row("a", "w", "NATIVE_MULTI_AGENT", Interrupted, None, None, Some(Paused), None, None, 0);
    var e := TransitionEvent("a", RecoverToPaused, Operator, Interrupted, Paused, None, "o", None);
    var b := PutRow(EMPTY, row).value;
    hide RuleOf;
    ReturnRule(RecoverInterrupt, Paused);
    var c := b.(events := b.events + [e]);
    assert c.events[0] == e;
    assert Backs(c.events[0], 1, row, Projected(row, e, 1));
  }

  predicate Pushes(t: TransitionType) {
    ActionOf(t) == Some(SetPause) || ActionOf(t) == Some(SetInterrupt) || ActionOf(t) == Some(SetInterruptFromPause)
  }

  predicate Pops(t: TransitionType) {
    ActionOf(t) == Some(ResumePause) || ActionOf(t) == Some(RecoverInterrupt)
  }

  /** A resume or a recovery returns to the state that the last open pause or interrupt left, and nested_pause_state
      is set exactly while an interrupted assignment was paused before. */
  lemma ResumeReturnsToPushed(b: Books, e: TransitionEvent)
    requires Inv(b) && Insert(b, e).Ok?
    ensures var row, p := b.assignments[e.assignment], Replay(b.events, e.assignment);
            var after, q := Insert(b, e).value.assignments[e.assignment], Replay(Insert(b, e).value.events, e.assignment);
            && Shows(row, p) && Shows(after, q) && |q.stack| <= 2
            && (Pushes(e.kind) ==> q.stack == p.stack + [row.state])
            && (Pops(e.kind) ==> p.stack == q.stack + [after.state])
            && (!Pushes(e.kind) && !Pops(e.kind) ==> q.stack == [])
            && (after.nestedPause.Some? <==> after.state == Interrupted && after.preInterrupt == Some(Paused))
            && (after.nestedPause.Some? <==> row.state == Paused && e.to == Interrupted)
  {
    assert RowOk(b, e.assignment);
    InsertKeepsInv(b, e);
    assert RowOk(Insert(b, e).value, e.assignment);
    ReplayAppend(b.events, e, e.assignment);
    hide Replay;
    hide Inv;
    hide UpdateError;
    StackMoves(b, e);
  }

  lemma StackMoves(b: Books, e: TransitionEvent)
    requires ValidateError(b, e).None? && RowOk(b, e.assignment)
    ensures var row, p := b.assignments[e.assignment], Replay(b.events, e.assignment);
            var after, q := Projected(row, e, |b.events| + 1), Advance(p, e, |b.events| + 1);
            && |q.stack| <= 2
            && (Pushes(e.kind) ==> q.stack == p.stack + [row.state])
            && (Pops(e.kind) ==> p.stack == q.stack + [after.state])
            && (!Pushes(e.kind) && !Pops(e.kind) ==> q.stack == [])
            && (after.nestedPause.Some? <==> after.state == Interrupted && after.preInterrupt == Some(Paused))
            && (after.nestedPause.Some? <==> row.state == Paused && e.to == Interrupted)
  {
    hide Replay;
    hide ChecksPass;
    hide RuleOf;
    ValidMeans(b, e);
    hide ValidateError;
    RulesAreShaped(e.kind);
  }

  function StopOf(s: State): TransitionType {
    match s
    case Drafted => StopFromDrafted
    case Assigned => StopFromAssigned
    case Acknowledged => StopFromAcknowledged
    case Running => StopFromRunning
    case ReviewPending => StopFromReviewPending
    case Paused => StopFromPaused
    case Interrupted => StopFromInterrupted
    case HandedOff => StopFromHandedOff
    case ChangesRequested => StopFromChangesRequested
    case _ => Other("")
  }

  // The event that apply_transition inserts for the row as it stands.
  function EventFor(b: Books, assignment: string, kind: TransitionType, actor: Actor, operation: string, target: Option<string>): TransitionEvent
    requires assignment in b.assignments && RuleOf(kind).Some?
  {
    var row := b.assignments[assignment];
    TransitionEvent(assignment, kind, actor, row.state, RuleOf(kind).value.to, row.current, operation, target)
  }

  // The table has a stop rule for each state that is not final.
  lemma StopRule(s: State)
    requires !Final(s) && !s.Text?
    ensures RuleOf(StopOf(s)) == Some(Rule(s, Stopped, Operator, ClearContext)) && StopOf(s) != Supersede
  {
  }

  lemma StopValid(b: Books, id: string, operation: string)
    requires id in b.assignments && RowOk(b, id) && !Final(b.assignments[id].state)
    ensures RuleOf(StopOf(b.assignments[id].state)).Some? && RuleOf(StopOf(b.assignments[id].state)).value.to == Stopped
    ensures ValidateError(b, EventFor(b, id, StopOf(b.assignments[id].state), Operator, operation, None)).None?
  {
    hide RuleOf;
    hide Replay;
    hide ValidateError;
    hide StackOk;
    StopRule(b.assignments[id].state);
    AcceptableIsValid(b, id, StopOf(b.assignments[id].state), Operator, operation, None);
  }

  /** The operator can stop a reachable assignment at once, unless it is in a final state. */
  lemma StopsInOneStep(b: Books, id: string, operation: string)
    requires Inv(b) && id in b.assignments && Unused(b, id, operation) && !Final(b.assignments[id].state)
    ensures RuleOf(StopOf(b.assignments[id].state)).Some?
    ensures var r := Insert(b, EventFor(b, id, StopOf(b.assignments[id].state), Operator, operation, None));
            r.Ok? && id in r.value.assignments && r.value.assignments[id].state == Stopped
  {
    assert RowOk(b, id);
    StopValid(b, id, operation);
    InsertMeans(b, EventFor(b, id, StopOf(b.assignments[id].state), Operator, operation, None));
    hide Inv;
    hide RowOk;
    hide RuleOf;
    hide Insert;
    hide ValidateError;
  }

  // No event leaves a final state.
  lemma FinalForGood(b: Books, e: TransitionEvent)
    requires Inv(b) && e.assignment in b.assignments && Final(b.assignments[e.assignment].state)
    ensures Insert(b, e).Err?
  {
    ConfirmedIsFinal(b, e);
    InsertMeans(b, e);
    hide Insert;
    hide ValidateError;
  }

  function ReturnOf(action: Action, s: State): TransitionType {
    match s
    case Acknowledged => if action == ResumePause then ResumeToAcknowledged else RecoverToAcknowledged
    case Running => if action == ResumePause then ResumeToRunning else RecoverToRunning
    case ReviewPending => if action == ResumePause then ResumeToReviewPending else RecoverToReviewPending
    case Paused => if action == RecoverInterrupt then RecoverToPaused else Other("")
    case _ => Other("")
  }

  // Where the assignment goes back to, and by which kind of event.
  function Top(b: Books, id: string): State {
    var p := Replay(b.events, id);
    if p.stack == [] then p.state else p.stack[|p.stack| - 1]
  }

  function ReturnAction(s: State): Action {
    if s == Paused then ResumePause else RecoverInterrupt
  }

  lemma InvRow(b: Books, id: string)
    requires Inv(b) && id in b.assignments
    ensures RowOk(b, id)
  {
  }

  // The event that takes a paused or interrupted assignment back passes the validation.
  lemma ReturnValid(b: Books, id: string, operation: string)
    requires id in b.assignments && RowOk(b, id)
    requires b.assignments[id].state == Paused || b.assignments[id].state == Interrupted
    ensures var kind := ReturnOf(ReturnAction(b.assignments[id].state), Top(b, id));
            && Replay(b.events, id).stack != [] && RuleOf(kind).Some? && RuleOf(kind).value.to == Top(b, id)
            && ValidateError(b, EventFor(b, id, kind, Operator, operation, None)).None?
  {
    hide RuleOf;
    hide Replay;
    hide ValidateError;
    hide ChecksPass;
    TopIsRecorded(b, id, ReturnAction(b.assignments[id].state));
    ReturnRule(ReturnAction(b.assignments[id].state), Top(b, id));
    AcceptableIsValid(b, id, ReturnOf(ReturnAction(b.assignments[id].state), Top(b, id)), Operator, operation, None);
  }

  // The table has a rule back to each state that can be on the stack.
  lemma ReturnRule(action: Action, s: State)
    requires (action == ResumePause && Working(s)) || (action == RecoverInterrupt && (Working(s) || s == Paused))
    ensures var from := if action == ResumePause then Paused else Interrupted;
            RuleOf(ReturnOf(action, s)) == Some(Rule(from, s, Operator, action)) && ReturnOf(action, s) != Supersede
  {
  }

  // No other event of the kind does.
  lemma OnlyTopReturns(b: Books, e: TransitionEvent)
    requires e.assignment in b.assignments && RowOk(b, e.assignment) && ValidateError(b, e).None? && Pops(e.kind)
    ensures var p := Replay(b.events, e.assignment); p.stack != [] && e.to == p.stack[|p.stack| - 1]
  {
    hide Replay;
    hide ChecksPass;
    hide RuleOf;
    ValidMeans(b, e);
    hide ValidateError;
    RulesAreShaped(e.kind);
  }

  /** The operator can always take a paused or interrupted assignment back to the state on top of its stack. */
  lemma ReturnIsPossible(b: Books, id: string, operation: string)
    requires Inv(b) && id in b.assignments && Unused(b, id, operation)
    requires b.assignments[id].state == Paused || b.assignments[id].state == Interrupted
    ensures RuleOf(ReturnOf(ReturnAction(b.assignments[id].state), Top(b, id))).Some?
    ensures var kind := ReturnOf(ReturnAction(b.assignments[id].state), Top(b, id));
            var r := Insert(b, EventFor(b, id, kind, Operator, operation, None));
            r.Ok? && id in r.value.assignments && r.value.assignments[id].state == Top(b, id)
  {
    hide Inv;
    hide RowOk;
    hide RuleOf;
    hide ReturnOf;
    hide Top;
    hide Insert;
    hide ValidateError;
    InvRow(b, id);
    ReturnValid(b, id, operation);
    InsertMeans(b, EventFor(b, id, ReturnOf(ReturnAction(b.assignments[id].state), Top(b, id)), Operator, operation, None));
  }

  /** ... and to no other state by an event of that kind. */
  lemma OnlyTopAccepted(b: Books, e: TransitionEvent)
    requires Inv(b) && Insert(b, e).Ok? && Pops(e.kind)
    ensures Replay(b.events, e.assignment).stack != [] && e.to == Top(b, e.assignment)
  {
    hide Insert;
    hide Replay;
    hide ValidateError;
    hide RuleOf;
    InsertMeans(b, e);
    assert RowOk(b, e.assignment);
    hide Inv;
    hide RowOk;
    OnlyTopReturns(b, e);
  }

  // The trigger's checks, for the event of the row as it stands.
  predicate Acceptable(b: Books, id: string, kind: TransitionType, actor: Actor, target: Option<string>)
    requires id in b.assignments && RuleOf(kind).Some?
  {
    var rule, row, p := RuleOf(kind).value, b.assignments[id], Replay(b.events, id);
    && rule.actor == actor && rule.from == row.state
    && (if kind == Supersede then target.Some? && target.value != id && target.value in b.assignments else target.None?)
    && (Pops(kind) ==> p.stack != [] && p.stack[|p.stack| - 1] == rule.to)
  }

  lemma AcceptableIsValid(b: Books, id: string, kind: TransitionType, actor: Actor, operation: string, target: Option<string>)
    requires id in b.assignments && RowOk(b, id) && RuleOf(kind).Some?
    ensures ValidateError(b, EventFor(b, id, kind, actor, operation, target)).None? <==> Acceptable(b, id, kind, actor, target)
  {
    hide Replay;
    hide ChecksPass;
    hide IsEventOf;
    hide RuleOf;
    RulesAreShaped(kind);
    CurrentIsOwn(b, id);
  }

  lemma CurrentIsOwn(b: Books, id: string)
    requires id in b.assignments && RowOk(b, id)
    ensures b.assignments[id].current.Some? ==> IsEventOf(b, b.assignments[id].current.value, id)
  {
    ReplayCurrent(b.events, id);
    hide Replay;
    hide ChecksPass;
    hide StackOk;
  }

  // The column that a resume or a recovery is checked against holds the top of the stack.
  lemma TopIsRecorded(b: Books, id: string, action: Action)
    requires id in b.assignments && RowOk(b, id)
    requires (action == ResumePause && b.assignments[id].state == Paused) || (action == RecoverInterrupt && b.assignments[id].state == Interrupted)
    ensures var row, p := b.assignments[id], Replay(b.events, id);
            && p.stack != []
            && (if action == ResumePause then row.prePause else row.preInterrupt) == Some(p.stack[|p.stack| - 1])
  {
    hide Replay;
    hide ChecksPass;
  }

  /** What apply_transition accepts: a rule of the row's state for this actor, a target exactly for a supersession,
      the top of the stack as the goal of a resume or recovery, and an unused operation id. */
  lemma TransitionAccepted(b: Books, id: string, kind: TransitionType, actor: Actor, operation: string, target: Option<string>)
    requires Inv(b) && id in b.assignments && RuleOf(kind).Some?
    ensures Insert(b, EventFor(b, id, kind, actor, operation, target)).Ok? <==>
              Acceptable(b, id, kind, actor, target) && Unused(b, id, operation)
  {
    assert RowOk(b, id);
    AcceptableIsValid(b, id, kind, actor, operation, target);
    InsertMeans(b, EventFor(b, id, kind, actor, operation, target));
    hide Insert;
    hide ValidateError;
    hide Acceptable;
    hide RuleOf;
  }

  // ---- The facade ----

  // The errors of a projection that did not follow its event.
  predicate ProjectionLost(code: string) {
    code == "PROJECTION_NOT_ADVANCED" || code == "PROJECTION_STATE_MISMATCH"
  }

  class Store {
    var assignments: map<string, Row>
    var events: seq<TransitionEvent>
    var receipts: map<string, Receipt>

    constructor ()
      ensures Contents() == EMPTY
    {
      assignments, events, receipts := map[], [], map[];
    }

    function Contents(): Books
      reads this
    {
      Books(assignments, events, receipts)
    }

    method CreateAssignment(id: string, workflow: string, mode: string, createdAt: int) returns (r: Result<(), string>)
      requires Inv(Contents())
      modifies this`assignments
      ensures Inv(Contents()) && Contents() == Next(old(Contents()), InsertRow(NewRow(id, workflow, mode, createdAt)))
      ensures r.Ok? <==> PutRow(old(Contents()), NewRow(id, workflow, mode, createdAt)).Ok?
      ensures r.Ok? ==> id in assignments && assignments[id].state == Drafted
    {
      var row := NewRow(id, workflow, mode, createdAt);
      NextKeepsInv(Contents(), InsertRow(row));
      hide Inv;
      if id in assignments { return Err("UNIQUE"); }
      if !ChecksPass(row) { return Err("CHECK"); }
      assignments := assignments[id := row];
      r := Ok(());
    }

    // INSERT INTO transition_events: the validating trigger, the event, the applying trigger behind the guard.
    method InsertEvent(e: TransitionEvent) returns (r: Result<int, string>)
      modifies this`assignments, this`events
      ensures Contents() == Next(old(Contents()), Op.InsertEvent(e))
      ensures r == if Insert(old(Contents()), e).Ok? then Ok(|events|) else Err(Insert(old(Contents()), e).error)
    {
      hide RuleOf;
      hide ChecksPass;
      hide ProjectionChanged;
      hide Backs;
      var code := ValidateError(Contents(), e);
      if code.Some? { return Err(code.value); }
      if exists k :: 0 <= k < |events| && events[k].assignment == e.assignment && events[k].operation == e.operation {
        return Err("UNIQUE");
      }
      var before := assignments[e.assignment];
      events := events + [e];
      var after := Projected(before, e, |events|);
      var refused := UpdateError(Contents(), before, after);
      if refused.Some? {
        events := events[..|events| - 1];
        return Err(refused.value);
      }
      assignments := assignments[e.assignment := after];
      r := Ok(|events|);
    }

    /** apply_transition: it reads the row, inserts the event and finds the row advanced by it. */
    method ApplyTransition(id: string, kind: TransitionType, actor: Actor, operation: string, target: Option<string>) returns (r: Result<int, string>)
      requires Inv(Contents())
      modifies this`assignments, this`events
      ensures Inv(Contents())
      ensures id !in old(assignments) ==> r == Err("NOT_FOUND")
      ensures id in old(assignments) && RuleOf(kind).None? ==> r == Err("UNKNOWN_TRANSITION_TYPE")
      ensures id in old(assignments) && RuleOf(kind).Some? && RuleOf(kind).value.actor != actor ==> r == Err("ACTOR_MISMATCH")
      ensures id in old(assignments) && RuleOf(kind).Some? ==>
                (r.Ok? <==> Acceptable(old(Contents()), id, kind, actor, target) && Unused(old(Contents()), id, operation))
      ensures r.Err? ==> Contents() == old(Contents()) && !ProjectionLost(r.error)
      ensures r.Ok? ==> id in old(assignments) && RuleOf(kind).Some? && r.value == |old(events)| + 1
      ensures r.Ok? ==> InsertShape(old(Contents()), EventFor(old(Contents()), id, kind, actor, operation, target), Contents())
      ensures r.Ok? ==> assignments[id].current == Some(r.value)
    {
      hide Inv;
      hide RuleOf;
      hide Insert;
      hide Acceptable;
      hide Unused;
      if id !in assignments { return Err("NOT_FOUND"); }
      var row := assignments[id];
      var rule := RuleOf(kind);
      if rule.None? { return Err("UNKNOWN_TRANSITION_TYPE"); }
      if rule.value.actor != actor {
        ActorIsAsked(Contents(), id, kind, actor, target);
        return Err("ACTOR_MISMATCH");
      }
      var e := TransitionEvent(id, kind, actor, row.state, rule.value.to, row.current, operation, target);
      EventForApplies(Contents(), id, kind, actor, operation, target, e);
      r := InsertEvent(e);
      if r.Ok? {
        if assignments[id].current != Some(r.value) { return Err("PROJECTION_NOT_ADVANCED"); }
        if assignments[id].state != rule.value.to { return Err("PROJECTION_STATE_MISMATCH"); }
      }
    }

    method RecordFinalAcceptance(receipt: Receipt) returns (r: Result<(), string>)
      requires Inv(Contents())
      modifies this`receipts
      ensures Inv(Contents()) && Contents() == Next(old(Contents()), RecordAcceptance(receipt))
      ensures r.Ok? <==> Accept(old(Contents()), receipt).Ok?
      ensures r.Ok? ==> assignments[receipt.assignment].state == Confirmed && (receipt.pass ==> receipt.readback)
    {
      hide Inv;
      NextKeepsInv(Contents(), RecordAcceptance(receipt));
      if !(receipt.assignment in assignments && assignments[receipt.assignment].state == Confirmed
           && assignments[receipt.assignment].mode == receipt.mode) {
        return Err("ACCEPTANCE_ASSIGNMENT_MODE_OR_STATE_MISMATCH");
      }
      if receipt.pass && !receipt.readback { return Err("PASS_REQUIRES_READBACK"); }
      if receipt.assignment in receipts { return Err("UNIQUE"); }
      receipts := receipts[receipt.assignment := receipt];
      r := Ok(());
    }
  }

  lemma ActorIsAsked(b: Books, id: string, kind: TransitionType, actor: Actor, target: Option<string>)
    requires id in b.assignments && RuleOf(kind).Some? && RuleOf(kind).value.actor != actor
    ensures !Acceptable(b, id, kind, actor, target)
  {
  }

  // The event for the row as it stands: when it is inserted, and what the row then shows.
  lemma EventForApplies(b: Books, id: string, kind: TransitionType, actor: Actor, operation: string, target: Option<string>, e: TransitionEvent)
    requires Inv(b) && id in b.assignments && RuleOf(kind).Some? && e == EventFor(b, id, kind, actor, operation, target)
    ensures Inv(Next(b, InsertEvent(e)))
    ensures Insert(b, e).Ok? <==> Acceptable(b, id, kind, actor, target) && Unused(b, id, operation)
    ensures Insert(b, e).Ok? ==> InsertShape(b, e, Insert(b, e).value) && Insert(b, e).value.assignments[id].current == Some(|b.events| + 1)
    ensures Insert(b, e).Err? ==> !ProjectionLost(Insert(b, e).error)
  {
    hide Inv;
    hide RuleOf;
    hide ValidateError;
    hide Acceptable;
    hide UpdateError;
    TransitionAccepted(b, id, kind, actor, operation, target);
    InsertMeans(b, e);
    NextKeepsInv(b, InsertEvent(e));
    if Insert(b, e).Err? { ErrorCodes(b, e); }
  }

  lemma ErrorCodes(b: Books, e: TransitionEvent)
    requires Insert(b, e).Err?
    ensures !ProjectionLost(Insert(b, e).error)
  {
    hide RuleOf;
  }
}
