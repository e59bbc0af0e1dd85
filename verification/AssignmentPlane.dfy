/** The assignment projection of the bus (reconcile_bus_assignments_v1): explicit assignment messages, in any
    order of arrival, become one chain of events per assignment. */
module AssignmentPlane {
  import opened Wrappers
  import opened Text

  // ---- Messages and their explicit envelopes ----

  datatype Message = Message(id: string, createdAt: int, domain: string, payload: map<string, string>)

  const ASSIGNMENT_KEYS: set<string> := {
    "assignment_id", "assignment_workflow_id", "assignment_assignee",
    "assignment_event", "assignment_state", "assignment_predecessor_message_id",
    "assignment_authority_ref", "assignment_protected_authority"
  }

  const ALLOWED_STATES: set<string> := {
    "DRAFTED", "ASSIGNED", "ACKNOWLEDGED", "RUNNING", "REVIEW_PENDING",
    "PAUSED_USAGE_EXHAUSTED", "INTERRUPTED", "HANDED_OFF", "CHANGES_REQUESTED",
    "STOPPED", "CONFIRMED", "SUPERSEDED"
  }

  // What every event of one assignment has to agree on.
  datatype Binding = Binding(workflow: string, assignee: string, protectedAuthority: bool, authority: Option<string>)

  datatype Envelope = Envelope(assignment: string, binding: Binding, protectedKnown: bool, event: string, state: string, predecessor: string)

  function Field(m: Message, key: string): string {
    if key in m.payload then Trim(m.payload[key]) else ""
  }

  function EnvelopeOf(m: Message): Envelope {
    var flag := if "assignment_protected_authority" in m.payload
                then Fold(Trim(m.payload["assignment_protected_authority"])) else "false";
    var authority := Field(m, "assignment_authority_ref");
    Envelope(
      Field(m, "assignment_id"),
      Binding(Field(m, "assignment_workflow_id"), Fold(Field(m, "assignment_assignee")), flag in {"true", "yes", "1"},
              if authority == "" then None else Some(authority)),
      flag in {"true", "yes", "1", "false", "no", "0", ""},
      Upper(Field(m, "assignment_event")), Upper(Field(m, "assignment_state")),
      Field(m, "assignment_predecessor_message_id"))
  }

  // The message has some assignment key, and its envelope is not one that can be projected.
  predicate Malformed(m: Message, identities: set<string>) {
    var e := EnvelopeOf(m);
    && m.domain == "chat_bus"
    && (exists k :: k in ASSIGNMENT_KEYS && k in m.payload)
    && (|| e.assignment == "" || e.binding.workflow == "" || e.binding.assignee == "" || e.event == "" || e.state == ""
        || !e.protectedKnown
        || e.state !in ALLOWED_STATES
        || e.event != e.state
        || (e.event == "ASSIGNED" && e.predecessor != "")
        || (e.event != "ASSIGNED" && e.predecessor == "")
        || (e.binding.protectedAuthority && e.binding.authority.None?)
        || e.binding.assignee !in identities)
  }

  predicate IsAssignmentMessage(m: Message) {
    m.domain == "chat_bus" && "assignment_id" in m.payload
  }

  // ---- The tables ----

  // An event's id is its position in the table, which only grows.
  datatype AssignmentEvent = AssignmentEvent(assignment: string, fromState: string, toState: string, predecessor: Option<nat>, operation: string)

  datatype Assignment = Assignment(binding: Binding, state: string, current: nat, source: string)

  datatype ConflictReason = RootAlreadyExists | BindingMismatch | PredecessorNotCurrent

  // invalid, conflicts and pending are the reconciliation events, at most one of each code for a message.
  datatype Tables = Tables(assignments: map<string, Assignment>, events: seq<AssignmentEvent>,
                           invalid: set<string>, conflicts: map<string, ConflictReason>, pending: set<string>)

  const EMPTY := Tables(map[], [], {}, map[], {})

  // The event a message was projected to, as its position.
  function FindEvent(events: seq<AssignmentEvent>, assignment: string, operation: string): (r: Option<nat>)
    ensures r.Some? ==> r.value < |events| && events[r.value].assignment == assignment && events[r.value].operation == operation
    ensures forall k :: (if r.None? then 0 else r.value + 1) <= k < |events| ==>
                          !(events[k].assignment == assignment && events[k].operation == operation)
  {
    if events == [] then None
    else
      var last := |events| - 1;
      if events[last].assignment == assignment && events[last].operation == operation then Some(last)
      else FindEvent(events[..last], assignment, operation)
  }

  predicate Applied(events: seq<AssignmentEvent>, m: Message) {
    FindEvent(events, EnvelopeOf(m).assignment, m.id).Some?
  }

  function Conflict(t: Tables, id: string, reason: ConflictReason): Tables {
    if id in t.conflicts then t else t.(conflicts := t.conflicts[id := reason])
  }

  function AddRoot(t: Tables, m: Message): Tables {
    var e := EnvelopeOf(m);
    t.(assignments := t.assignments[e.assignment := Assignment(e.binding, e.state, |t.events|, m.id)],
       events := t.events + [AssignmentEvent(e.assignment, "DRAFTED", e.state, None, m.id)])
  }

  function AddSuccessor(t: Tables, m: Message): Tables
    requires EnvelopeOf(m).assignment in t.assignments
  {
    var e := EnvelopeOf(m);
    var a := t.assignments[e.assignment];
    t.(assignments := t.assignments[e.assignment := a.(state := e.state, current := |t.events|)],
       events := t.events + [AssignmentEvent(e.assignment, a.state, e.state, Some(a.current), m.id)])
  }

  // One message of the fixed-point loop.
  function Step(t: Tables, m: Message): Tables {
    var e := EnvelopeOf(m);
    if !IsAssignmentMessage(m) || m.id in t.invalid || Applied(t.events, m) then t
    else if e.event == "ASSIGNED" then
      if e.assignment in t.assignments then Conflict(t, m.id, RootAlreadyExists) else AddRoot(t, m)
    else if e.assignment !in t.assignments then t
    else if t.assignments[e.assignment].binding != e.binding then Conflict(t, m.id, BindingMismatch)
    else
      var predecessor := FindEvent(t.events, e.assignment, e.predecessor);
      if predecessor.None? then t
      else if predecessor.value != t.assignments[e.assignment].current then Conflict(t, m.id, PredecessorNotCurrent)
      else AddSuccessor(t, m)
  }

  function Pass(t: Tables, messages: seq<Message>): Tables
    decreases |messages|
  {
    if messages == [] then t else Pass(Step(t, messages[0]), messages[1..])
  }

  function MalformedIds(messages: seq<Message>, identities: set<string>): set<string> {
    set m | m in messages && Malformed(m, identities) :: m.id
  }

  function ObserveInvalid(t: Tables, messages: seq<Message>, identities: set<string>): Tables {
    t.(invalid := t.invalid + MalformedIds(messages, identities))
  }

  predicate Waits(t: Tables, m: Message) {
    && IsAssignmentMessage(m) && EnvelopeOf(m).event != "ASSIGNED"
    && !Applied(t.events, m) && m.id !in t.invalid && m.id !in t.conflicts
  }

  function WaitingIds(t: Tables, messages: seq<Message>): set<string> {
    set m | m in messages && Waits(t, m) :: m.id
  }

  function ObservePending(t: Tables, messages: seq<Message>): Tables {
    t.(pending := t.pending + WaitingIds(t, messages))
  }

  // ---- The fixed point ----

  // Messages that have no event yet.
  function Unapplied(events: seq<AssignmentEvent>, messages: seq<Message>): nat {
    if messages == [] then 0 else (if Applied(events, messages[0]) then 0 else 1) + Unapplied(events, messages[1..])
  }

  lemma FindEventKept(events: seq<AssignmentEvent>, more: seq<AssignmentEvent>, assignment: string, operation: string)
    requires FindEvent(events, assignment, operation).Some?
    ensures FindEvent(events + more, assignment, operation).Some?
  {
    var k := FindEvent(events, assignment, operation).value;
    assert (events + more)[k] == events[k];
  }

  predicate Extends(events: seq<AssignmentEvent>, longer: seq<AssignmentEvent>) {
    |events| <= |longer| && longer[..|events|] == events
  }

  lemma AppliedKept(events: seq<AssignmentEvent>, longer: seq<AssignmentEvent>, m: Message)
    requires Extends(events, longer) && Applied(events, m)
    ensures Applied(longer, m)
  {
    assert longer == events + longer[|events|..];
    FindEventKept(events, longer[|events|..], EnvelopeOf(m).assignment, m.id);
  }

  lemma {:induction false} UnappliedShrinks(events: seq<AssignmentEvent>, longer: seq<AssignmentEvent>, messages: seq<Message>)
    requires Extends(events, longer)
    ensures Unapplied(longer, messages) <= Unapplied(events, messages)
    ensures (exists m :: m in messages && Applied(longer, m) && !Applied(events, m)) ==> Unapplied(longer, messages) < Unapplied(events, messages)
  {
    if messages != [] {
      UnappliedShrinks(events, longer, messages[1..]);
      if Applied(events, messages[0]) { AppliedKept(events, longer, messages[0]); }
    }
  }

  lemma StepExtends(t: Tables, m: Message)
    ensures var u := Step(t, m);
            && Extends(t.events, u.events)
            && (|u.events| > |t.events| ==> Applied(u.events, m) && !Applied(t.events, m))
            && (|u.events| == |t.events| ==> u.events == t.events && u.assignments == t.assignments)
            && u.invalid == t.invalid && u.pending == t.pending
  {
    hide EnvelopeOf;
    var u := Step(t, m);
    if |u.events| > |t.events| {
      var k := |t.events|;
      assert u.events[k].assignment == EnvelopeOf(m).assignment && u.events[k].operation == m.id;
    }
  }

  lemma {:induction false} PassExtends(t: Tables, messages: seq<Message>)
    ensures var u := Pass(t, messages);
            && Extends(t.events, u.events)
            && (|u.events| > |t.events| ==> exists m :: m in messages && Applied(u.events, m) && !Applied(t.events, m))
            && (|u.events| == |t.events| ==> u.events == t.events && u.assignments == t.assignments)
            && u.invalid == t.invalid && u.pending == t.pending
    decreases |messages|
  {
    if messages != [] {
      var u := Step(t, messages[0]);
      StepExtends(t, messages[0]);
      PassExtends(u, messages[1..]);
      var v := Pass(u, messages[1..]);
      if |u.events| > |t.events| {
        AppliedKept(u.events, v.events, messages[0]);
        assert messages[0] in messages;
      } else if |v.events| > |u.events| {
        var m :| m in messages[1..] && Applied(v.events, m) && !Applied(u.events, m);
        assert m in messages;
      }
    }
  }

  lemma PassProgress(t: Tables, messages: seq<Message>)
    requires |Pass(t, messages).events| > |t.events|
    ensures Unapplied(Pass(t, messages).events, messages) < Unapplied(t.events, messages)
  {
    PassExtends(t, messages);
    UnappliedShrinks(t.events, Pass(t, messages).events, messages);
  }

  // Passes are repeated for as long as they project something.
  function FixedPoint(t: Tables, messages: seq<Message>): Tables
    decreases Unapplied(t.events, messages)
  {
    var u := Pass(t, messages);
    if |u.events| > |t.events| then
      PassProgress(t, messages);
      FixedPoint(u, messages)
    else u
  }

  function Reconciled(t: Tables, messages: seq<Message>, identities: set<string>): Tables {
    ObservePending(FixedPoint(ObserveInvalid(t, messages, identities), messages), messages)
  }

  // ---- Chains of messages ----

  // The operations of one assignment's events, oldest first.
  function Operations(events: seq<AssignmentEvent>, assignment: string): seq<string> {
    if events == [] then []
    else
      var last := events[|events| - 1];
      Operations(events[..|events| - 1], assignment) + if last.assignment == assignment then [last.operation] else []
  }

  predicate Roots(m: Message, assignment: string, binding: Binding, id: string) {
    m.id == id && EnvelopeOf(m).assignment == assignment && EnvelopeOf(m).event == "ASSIGNED" && EnvelopeOf(m).binding == binding
  }

  predicate Follows(m: Message, assignment: string, binding: Binding, previous: string, id: string) {
    && m.id == id && EnvelopeOf(m).assignment == assignment && EnvelopeOf(m).event != "ASSIGNED"
    && EnvelopeOf(m).binding == binding && EnvelopeOf(m).predecessor == previous
  }

  ghost predicate Link(usable: set<Message>, assignment: string, binding: Binding, ids: seq<string>, i: nat)
    requires i < |ids|
  {
    if i == 0 then exists m :: m in usable && Roots(m, assignment, binding, ids[0])
    else exists m :: m in usable && Follows(m, assignment, binding, ids[i - 1], ids[i])
  }

  // A root message, then messages that each name the one before and agree on the root's binding.
  ghost predicate IsChain(usable: set<Message>, assignment: string, binding: Binding, ids: seq<string>) {
    && (forall i :: 0 <= i < |ids| ==> Link(usable, assignment, binding, ids, i))
    && (forall i, j :: 0 <= i < j < |ids| ==> ids[i] != ids[j])
  }

  // No message continues the chain, or starts one where there is none.
  ghost predicate IsComplete(usable: set<Message>, assignment: string, binding: Binding, ids: seq<string>) {
    if ids == [] then forall m, b :: m in usable ==> !Roots(m, assignment, b, m.id)
    else forall m :: m in usable ==> !Follows(m, assignment, binding, ids[|ids| - 1], m.id)
  }

  // No two messages root one assignment, or name one predecessor in it.
  ghost predicate NoRivals(usable: set<Message>) {
    forall m, n :: m in usable && n in usable && m != n && EnvelopeOf(m).assignment == EnvelopeOf(n).assignment ==>
                     && !(EnvelopeOf(m).event == "ASSIGNED" && EnvelopeOf(n).event == "ASSIGNED")
                     && !(EnvelopeOf(m).event != "ASSIGNED" && EnvelopeOf(n).event != "ASSIGNED" && EnvelopeOf(m).predecessor == EnvelopeOf(n).predecessor)
  }

  lemma {:induction false} ChainsAgree(usable: set<Message>, assignment: string, b: Binding, ids: seq<string>, c: Binding, others: seq<string>, i: nat)
    requires NoRivals(usable) && IsChain(usable, assignment, b, ids) && IsChain(usable, assignment, c, others)
    requires i < |ids| && i < |others|
    ensures b == c && ids[i] == others[i]
  {
    assert Link(usable, assignment, b, ids, i) && Link(usable, assignment, c, others, i);
    if i > 0 {
      ChainsAgree(usable, assignment, b, ids, c, others, i - 1);
      var m :| m in usable && Follows(m, assignment, b, ids[i - 1], ids[i]);
      var n :| n in usable && Follows(n, assignment, c, others[i - 1], others[i]);
      assert m == n;
    } else {
      var m :| m in usable && Roots(m, assignment, b, ids[0]);
      var n :| n in usable && Roots(n, assignment, c, others[0]);
      assert m == n;
    }
  }

  // Message i of a chain.
  lemma ChainMessage(usable: set<Message>, assignment: string, binding: Binding, ids: seq<string>, i: nat) returns (m: Message)
    requires IsChain(usable, assignment, binding, ids) && i < |ids|
    ensures m in usable && m.id == ids[i]
    ensures if i == 0 then Roots(m, assignment, binding, ids[0]) else Follows(m, assignment, binding, ids[i - 1], ids[i])
  {
    assert Link(usable, assignment, binding, ids, i);
    if i == 0 {
      m :| m in usable && Roots(m, assignment, binding, ids[0]);
    } else {
      m :| m in usable && Follows(m, assignment, binding, ids[i - 1], ids[i]);
    }
  }

  lemma CompleteIsNotShorter(usable: set<Message>, assignment: string, b: Binding, ids: seq<string>, c: Binding, others: seq<string>)
    requires NoRivals(usable)
    requires IsChain(usable, assignment, b, ids) && IsComplete(usable, assignment, b, ids) && IsChain(usable, assignment, c, others)
    ensures |others| <= |ids|
  {
    if |ids| < |others| {
      if ids != [] { ChainsAgree(usable, assignment, b, ids, c, others, |ids| - 1); }
      var m := ChainMessage(usable, assignment, c, others, |ids|);
    }
  }

  // Without rivals there is one complete chain of an assignment.
  lemma CompleteChainUnique(usable: set<Message>, assignment: string, b: Binding, ids: seq<string>, c: Binding, others: seq<string>)
    requires NoRivals(usable)
    requires IsChain(usable, assignment, b, ids) && IsComplete(usable, assignment, b, ids)
    requires IsChain(usable, assignment, c, others) && IsComplete(usable, assignment, c, others)
    ensures ids == others && (ids != [] ==> b == c)
  {
    CompleteIsNotShorter(usable, assignment, b, ids, c, others);
    CompleteIsNotShorter(usable, assignment, c, others, b, ids);
    forall i | 0 <= i < |ids|
      ensures ids[i] == others[i]
    {
      ChainsAgree(usable, assignment, b, ids, c, others, i);
    }
    if ids != [] { ChainsAgree(usable, assignment, b, ids, c, others, 0); }
  }

  // ---- What the tables always satisfy ----

  // The messages that can be projected: well formed, and never observed as invalid.
  ghost function Usable(t: Tables, messages: seq<Message>, identities: set<string>): set<Message> {
    set m | m in messages && IsAssignmentMessage(m) && !Malformed(m, identities) && m.id !in t.invalid
  }

  // The assignment row shows its last event.
  predicate IsCurrent(t: Tables, assignment: string)
    requires assignment in t.assignments
  {
    var a := t.assignments[assignment];
    && a.current < |t.events| && t.events[a.current].assignment == assignment && t.events[a.current].toState == a.state
    && (forall k :: a.current < k < |t.events| ==> t.events[k].assignment != assignment)
  }

  ghost predicate AssignmentOk(t: Tables, usable: set<Message>, assignment: string) {
    var ids := Operations(t.events, assignment);
    && (assignment in t.assignments <==> ids != [])
    && (assignment in t.assignments ==>
          && IsCurrent(t, assignment)
          && t.assignments[assignment].source == ids[0]
          && t.events[t.assignments[assignment].current].operation == ids[|ids| - 1]
          && IsChain(usable, assignment, t.assignments[assignment].binding, ids))
  }

  // Event k starts its assignment from DRAFTED, or starts from where the assignment's event before it ended.
  predicate LinkedBack(events: seq<AssignmentEvent>, k: nat)
    requires k < |events|
  {
    match events[k].predecessor
    case None => events[k].fromState == "DRAFTED" && forall i :: 0 <= i < k ==> events[i].assignment != events[k].assignment
    case Some(p) =>
      && p < k && events[p].assignment == events[k].assignment && events[p].toState == events[k].fromState
      && forall i :: p < i < k ==> events[i].assignment != events[k].assignment
  }

  // The event is that of a message of its assignment, and moves it to the state that the message states.
  ghost predicate StatesMessage(t: Tables, usable: set<Message>, e: AssignmentEvent) {
    && e.assignment in t.assignments
    && exists m :: m in usable && m.id == e.operation && EnvelopeOf(m).state == e.toState && BelongsTo(t, m, e.assignment)
  }

  predicate BelongsTo(t: Tables, m: Message, assignment: string) {
    && assignment in t.assignments && EnvelopeOf(m).assignment == assignment
    && t.assignments[assignment].binding == EnvelopeOf(m).binding
  }

  ghost predicate AllStated(t: Tables, usable: set<Message>) {
    forall k :: 0 <= k < |t.events| ==> StatesMessage(t, usable, t.events[k])
  }

  predicate AllLinked(events: seq<AssignmentEvent>) {
    forall k :: 0 <= k < |events| ==> LinkedBack(events, k)
  }

  ghost predicate ChainInv(t: Tables, usable: set<Message>) {
    (forall a :: AssignmentOk(t, usable, a)) && AllLinked(t.events) && AllStated(t, usable)
  }

  // Bindings stay, so an event added for a message leaves every event with its message.
  lemma AllStatedKept(t: Tables, u: Tables, usable: set<Message>, m: Message)
    requires AllStated(t, usable) && m in usable && |u.events| == |t.events| + 1 && u.events[..|t.events|] == t.events
    requires forall a :: a in t.assignments ==> a in u.assignments && u.assignments[a].binding == t.assignments[a].binding
    requires var e := u.events[|t.events|]; BelongsTo(u, m, e.assignment) && m.id == e.operation && EnvelopeOf(m).state == e.toState
    ensures AllStated(u, usable)
  {
    hide EnvelopeOf;
    forall k | 0 <= k < |u.events|
      ensures StatesMessage(u, usable, u.events[k])
    {
      if k < |t.events| {
        assert StatesMessage(t, usable, t.events[k]);
        var n :| n in usable && n.id == t.events[k].operation && EnvelopeOf(n).state == t.events[k].toState && BelongsTo(t, n, t.events[k].assignment);
        assert BelongsTo(u, n, t.events[k].assignment);
      }
    }
  }

  lemma {:induction false} OperationsFind(events: seq<AssignmentEvent>, assignment: string, operation: string)
    ensures operation in Operations(events, assignment) <==> FindEvent(events, assignment, operation).Some?
  {
    if events != [] {
      OperationsFind(events[..|events| - 1], assignment, operation);
    }
  }

  lemma OperationsAppend(events: seq<AssignmentEvent>, e: AssignmentEvent, assignment: string)
    ensures Operations(events + [e], assignment) == Operations(events, assignment) + if e.assignment == assignment then [e.operation] else []
  {
    assert (events + [e])[..|events|] == events;
  }

  lemma LinkedBackKept(events: seq<AssignmentEvent>, e: AssignmentEvent)
    requires AllLinked(events) && LinkedBack(events + [e], |events|)
    ensures AllLinked(events + [e])
  {
    forall k | 0 <= k < |events|
      ensures LinkedBack(events + [e], k)
    {
      assert LinkedBack(events, k);
    }
  }

  lemma ChainExtended(usable: set<Message>, assignment: string, binding: Binding, ids: seq<string>, id: string)
    requires IsChain(usable, assignment, binding, ids) && id !in ids
    requires Link(usable, assignment, binding, ids + [id], |ids|)
    ensures IsChain(usable, assignment, binding, ids + [id])
  {
    forall i | 0 <= i < |ids|
      ensures Link(usable, assignment, binding, ids + [id], i)
    {
      assert Link(usable, assignment, binding, ids, i);
    }
  }

  // An event of one assignment changes nothing about the others.
  lemma OtherAssignmentKept(t: Tables, u: Tables, usable: set<Message>, e: AssignmentEvent, assignment: string)
    requires AssignmentOk(t, usable, assignment) && u.events == t.events + [e] && e.assignment != assignment
    requires assignment in u.assignments <==> assignment in t.assignments
    requires assignment in t.assignments ==> u.assignments[assignment] == t.assignments[assignment]
    ensures AssignmentOk(u, usable, assignment)
  {
    OperationsAppend(t.events, e, assignment);
    assert Operations(u.events, assignment) == Operations(t.events, assignment);
  }

  lemma RootKeepsInv(t: Tables, usable: set<Message>, m: Message)
    requires ChainInv(t, usable) && m in usable && EnvelopeOf(m).event == "ASSIGNED" && EnvelopeOf(m).assignment !in t.assignments
    ensures ChainInv(AddRoot(t, m), usable)
  {
    hide EnvelopeOf;
    hide AllStated;
    var u, e := AddRoot(t, m), EnvelopeOf(m);
    var event := u.events[|t.events|];
    assert u.events == t.events + [event];
    assert AssignmentOk(t, usable, e.assignment);
    OperationsAppend(t.events, event, e.assignment);
    assert Roots(m, e.assignment, e.binding, m.id);
    assert AssignmentOk(u, usable, e.assignment) by {
      assert Operations(u.events, e.assignment) == [m.id];
      assert Link(usable, e.assignment, e.binding, [m.id], 0);
    }
    forall a | a != e.assignment
      ensures AssignmentOk(u, usable, a)
    {
      assert AssignmentOk(t, usable, a);
      OtherAssignmentKept(t, u, usable, event, a);
    }
    NoEventOfUnknown(t.events, e.assignment);
    LinkedBackKept(t.events, event);
    AllStatedKept(t, u, usable, m);
  }

  lemma {:induction false} NoEventOfUnknown(events: seq<AssignmentEvent>, assignment: string)
    requires Operations(events, assignment) == []
    ensures forall k :: 0 <= k < |events| ==> events[k].assignment != assignment
  {
    if events != [] { NoEventOfUnknown(events[..|events| - 1], assignment); }
  }

  lemma SuccessorKeepsInv(t: Tables, usable: set<Message>, m: Message)
    requires ChainInv(t, usable) && m in usable && EnvelopeOf(m).event != "ASSIGNED" && !Applied(t.events, m)
    requires EnvelopeOf(m).assignment in t.assignments
    requires t.assignments[EnvelopeOf(m).assignment].binding == EnvelopeOf(m).binding
    requires FindEvent(t.events, EnvelopeOf(m).assignment, EnvelopeOf(m).predecessor) == Some(t.assignments[EnvelopeOf(m).assignment].current)
    ensures ChainInv(AddSuccessor(t, m), usable)
  {
    hide EnvelopeOf;
    hide AllStated;
    var u, e := AddSuccessor(t, m), EnvelopeOf(m);
    var event := u.events[|t.events|];
    assert u.events == t.events + [event];
    assert AssignmentOk(t, usable, e.assignment);
    var ids := Operations(t.events, e.assignment);
    OperationsAppend(t.events, event, e.assignment);
    OperationsFind(t.events, e.assignment, m.id);
    assert AssignmentOk(u, usable, e.assignment) by {
      assert Follows(m, e.assignment, e.binding, ids[|ids| - 1], m.id);
      assert Link(usable, e.assignment, e.binding, ids + [m.id], |ids|);
      ChainExtended(usable, e.assignment, e.binding, ids, m.id);
    }
    forall a | a != e.assignment
      ensures AssignmentOk(u, usable, a)
    {
      assert AssignmentOk(t, usable, a);
      OtherAssignmentKept(t, u, usable, event, a);
    }
    LinkedBackKept(t.events, event);
    AllStatedKept(t, u, usable, m);
  }

  lemma ObservationsKeepInv(t: Tables, u: Tables, usable: set<Message>)
    requires ChainInv(t, usable) && u.events == t.events && u.assignments == t.assignments
    ensures ChainInv(u, usable)
  {
    forall a
      ensures AssignmentOk(u, usable, a)
    {
      assert AssignmentOk(t, usable, a);
    }
    forall k | 0 <= k < |t.events|
      ensures StatesMessage(u, usable, t.events[k])
    {
      assert StatesMessage(t, usable, t.events[k]);
      var n :| n in usable && n.id == t.events[k].operation && EnvelopeOf(n).state == t.events[k].toState && BelongsTo(t, n, t.events[k].assignment);
      assert BelongsTo(u, n, t.events[k].assignment);
    }
  }

  lemma StepKeepsInv(t: Tables, usable: set<Message>, m: Message)
    requires ChainInv(t, usable) && (IsAssignmentMessage(m) && m.id !in t.invalid ==> m in usable)
    ensures ChainInv(Step(t, m), usable)
  {
    hide ChainInv;
    hide EnvelopeOf;
    var u, e := Step(t, m), EnvelopeOf(m);
    if u.events == t.events && u.assignments == t.assignments {
      ObservationsKeepInv(t, u, usable);
    } else if e.event == "ASSIGNED" {
      RootKeepsInv(t, usable, m);
    } else {
      SuccessorKeepsInv(t, usable, m);
    }
  }

  lemma {:induction false} PassKeepsInv(t: Tables, usable: set<Message>, messages: seq<Message>)
    requires ChainInv(t, usable)
    requires forall m :: m in messages && IsAssignmentMessage(m) && m.id !in t.invalid ==> m in usable
    ensures ChainInv(Pass(t, messages), usable)
    decreases |messages|
  {
    hide ChainInv;
    hide Step;
    if messages != [] {
      StepKeepsInv(t, usable, messages[0]);
      StepExtends(t, messages[0]);
      PassKeepsInv(Step(t, messages[0]), usable, messages[1..]);
    }
  }

  lemma {:induction false} FixedPointKeepsInv(t: Tables, usable: set<Message>, messages: seq<Message>)
    requires ChainInv(t, usable)
    requires forall m :: m in messages && IsAssignmentMessage(m) && m.id !in t.invalid ==> m in usable
    ensures ChainInv(FixedPoint(t, messages), usable)
    decreases Unapplied(t.events, messages)
  {
    hide ChainInv;
    hide Pass;
    hide Unapplied;
    var u := Pass(t, messages);
    PassKeepsInv(t, usable, messages);
    PassExtends(t, messages);
    if |u.events| > |t.events| {
      PassProgress(t, messages);
      FixedPointKeepsInv(u, usable, messages);
    }
  }

  // ---- What the fixed point settles ----

  // No message would change anything any more.
  predicate Settled(t: Tables, messages: seq<Message>) {
    forall m :: m in messages ==> Step(t, m) == t
  }

  // Nothing that a step looks at differs, and what it would observe has been observed.
  lemma StepIdleLater(t: Tables, u: Tables, m: Message)
    requires u.events == t.events && u.assignments == t.assignments && u.invalid == t.invalid
    requires |Step(t, m).events| == |t.events| && Step(t, m).conflicts.Keys <= u.conflicts.Keys
    ensures Step(u, m) == u
  {
    hide EnvelopeOf;
    hide FindEvent;
  }

  lemma {:induction false} PassConflictsGrow(t: Tables, messages: seq<Message>)
    ensures t.conflicts.Keys <= Pass(t, messages).conflicts.Keys
    decreases |messages|
  {
    if messages != [] { PassConflictsGrow(Step(t, messages[0]), messages[1..]); }
  }

  lemma {:induction false} IdlePassSettles(t: Tables, messages: seq<Message>)
    requires |Pass(t, messages).events| == |t.events|
    ensures Settled(Pass(t, messages), messages)
    decreases |messages|
  {
    if messages != [] {
      var u, r := Step(t, messages[0]), Pass(t, messages);
      PassExtends(t, messages);
      StepExtends(t, messages[0]);
      PassExtends(u, messages[1..]);
      PassConflictsGrow(u, messages[1..]);
      StepIdleLater(t, r, messages[0]);
      IdlePassSettles(u, messages[1..]);
      hide Step;
      forall m | m in messages
        ensures Step(r, m) == r
      {
        if m != messages[0] { assert m in messages[1..]; }
      }
    }
  }

  lemma {:induction false} FixedPointSettles(t: Tables, messages: seq<Message>)
    ensures Settled(FixedPoint(t, messages), messages)
    decreases Unapplied(t.events, messages)
  {
    hide Settled;
    var u := Pass(t, messages);
    PassExtends(t, messages);
    if |u.events| > |t.events| {
      PassProgress(t, messages);
      FixedPointSettles(u, messages);
    } else {
      IdlePassSettles(t, messages);
    }
  }

  lemma {:induction false} SettledPass(t: Tables, messages: seq<Message>)
    requires Settled(t, messages)
    ensures Pass(t, messages) == t
    decreases |messages|
  {
    if messages != [] {
      assert messages[0] in messages;
      SettledPass(t, messages[1..]);
    }
  }

  lemma PendingKeepsSettled(t: Tables, messages: seq<Message>)
    requires Settled(t, messages)
    ensures Settled(ObservePending(t, messages), messages)
  {
    var u := ObservePending(t, messages);
    forall m | m in messages
      ensures Step(u, m) == u
    {
      assert Step(t, m) == t;
      StepIdleLater(t, u, m);
    }
  }

  lemma ReconciledSettles(t: Tables, messages: seq<Message>, identities: set<string>)
    ensures Settled(Reconciled(t, messages, identities), messages)
  {
    var i := ObserveInvalid(t, messages, identities);
    FixedPointSettles(i, messages);
    PendingKeepsSettled(FixedPoint(i, messages), messages);
  }

  lemma {:induction false} FixedPointInvalid(t: Tables, messages: seq<Message>)
    ensures FixedPoint(t, messages).invalid == t.invalid && Extends(t.events, FixedPoint(t, messages).events)
    decreases Unapplied(t.events, messages)
  {
    var u := Pass(t, messages);
    PassExtends(t, messages);
    if |u.events| > |t.events| {
      PassProgress(t, messages);
      FixedPointInvalid(u, messages);
    }
  }

  /** Reconciling again, with no message in between, changes nothing and observes nothing. */
  lemma ReconcileIdempotent(t: Tables, messages: seq<Message>, identities: set<string>)
    ensures var r := Reconciled(t, messages, identities); Reconciled(r, messages, identities) == r
  {
    var r := Reconciled(t, messages, identities);
    var i := ObserveInvalid(t, messages, identities);
    FixedPointInvalid(i, messages);
    assert ObserveInvalid(r, messages, identities) == r;
    ReconciledSettles(t, messages, identities);
    SettledPass(r, messages);
    assert FixedPoint(r, messages) == r;
    assert ObservePending(r, messages) == r;
  }

  // Where a message of the table has ended up.
  predicate Accounted(t: Tables, m: Message) {
    || m.id in t.invalid
    || Applied(t.events, m)
    || m.id in t.conflicts
    || (m.id in t.pending && EnvelopeOf(m).event != "ASSIGNED"
        && (EnvelopeOf(m).assignment !in t.assignments || FindEvent(t.events, EnvelopeOf(m).assignment, EnvelopeOf(m).predecessor).None?))
  }

  /** After a reconcile every assignment message is projected, or observed as invalid, in conflict, or waiting
      for a predecessor that has no event. */
  lemma EveryMessageAccounted(t: Tables, messages: seq<Message>, identities: set<string>)
    ensures forall m :: m in messages && IsAssignmentMessage(m) ==> Accounted(Reconciled(t, messages, identities), m)
  {
    var r := Reconciled(t, messages, identities);
    ReconciledSettles(t, messages, identities);
    forall m | m in messages && IsAssignmentMessage(m)
      ensures Accounted(r, m)
    {
      assert Step(r, m) == r;
      SettledMeans(r, m);
      if Waits(r, m) { assert m.id in r.pending; }
    }
  }

  // What it means for a step to change nothing.
  lemma SettledMeans(r: Tables, m: Message)
    requires Step(r, m) == r && IsAssignmentMessage(m)
    ensures var e := EnvelopeOf(m);
            || m.id in r.invalid || Applied(r.events, m) || m.id in r.conflicts
            || (e.event != "ASSIGNED" && (e.assignment !in r.assignments || FindEvent(r.events, e.assignment, e.predecessor).None?))
  {
    hide EnvelopeOf;
    StepExtends(r, m);
  }

  // ---- Complete chains ----

  // The chain of an assignment that the events spell out.
  ghost predicate ChainComplete(t: Tables, usable: set<Message>, assignment: string) {
    var ids := Operations(t.events, assignment);
    exists b :: IsChain(usable, assignment, b, ids) && IsComplete(usable, assignment, b, ids)
                && (assignment in t.assignments <==> ids != [])
                && (assignment in t.assignments ==> t.assignments[assignment].binding == b)
  }

  ghost predicate DistinctIds(messages: set<Message>) {
    forall m, n :: m in messages && n in messages && m.id == n.id ==> m == n
  }

  lemma NoRootLeft(t: Tables, m: Message)
    requires Step(t, m) == t && IsAssignmentMessage(m) && m.id !in t.invalid
    requires EnvelopeOf(m).assignment !in t.assignments && Operations(t.events, EnvelopeOf(m).assignment) == []
    ensures EnvelopeOf(m).event != "ASSIGNED"
  {
    hide EnvelopeOf;
    OperationsFind(t.events, EnvelopeOf(m).assignment, m.id);
  }

  // What names the last message of the chain is not in the chain.
  lemma NextNotApplied(t: Tables, usable: set<Message>, assignment: string, m: Message)
    requires AssignmentOk(t, usable, assignment) && assignment in t.assignments && DistinctIds(usable) && m in usable
    requires var ids := Operations(t.events, assignment); Follows(m, assignment, t.assignments[assignment].binding, ids[|ids| - 1], m.id)
    ensures !Applied(t.events, m)
  {
    hide EnvelopeOf;
    var ids := Operations(t.events, assignment);
    OperationsFind(t.events, assignment, m.id);
    if m.id in ids {
      var j :| 0 <= j < |ids| && ids[j] == m.id;
      var n := ChainMessage(usable, assignment, t.assignments[assignment].binding, ids, j);
    }
  }

  // What names the last message of the chain would be projected.
  lemma NextIsProjected(t: Tables, usable: set<Message>, assignment: string, m: Message)
    requires AssignmentOk(t, usable, assignment) && assignment in t.assignments && DistinctIds(usable) && m in usable
    requires IsAssignmentMessage(m) && m.id !in t.invalid
    requires var ids := Operations(t.events, assignment); Follows(m, assignment, t.assignments[assignment].binding, ids[|ids| - 1], m.id)
    ensures |Step(t, m).events| > |t.events|
  {
    hide EnvelopeOf;
    hide IsChain;
    NextNotApplied(t, usable, assignment, m);
    var ids, a := Operations(t.events, assignment), t.assignments[assignment];
    assert FindEvent(t.events, assignment, ids[|ids| - 1]) == Some(a.current);
  }

  lemma NoSuccessorLeft(t: Tables, usable: set<Message>, assignment: string, m: Message)
    requires AssignmentOk(t, usable, assignment) && assignment in t.assignments && DistinctIds(usable) && m in usable
    requires Step(t, m) == t && IsAssignmentMessage(m) && m.id !in t.invalid
    ensures var ids := Operations(t.events, assignment); !Follows(m, assignment, t.assignments[assignment].binding, ids[|ids| - 1], m.id)
  {
    hide Step;
    hide EnvelopeOf;
    var ids := Operations(t.events, assignment);
    if Follows(m, assignment, t.assignments[assignment].binding, ids[|ids| - 1], m.id) {
      NextIsProjected(t, usable, assignment, m);
    }
  }

  lemma SettledIsComplete(t: Tables, usable: set<Message>, messages: seq<Message>, assignment: string)
    requires ChainInv(t, usable) && Settled(t, messages) && DistinctIds(usable)
    requires forall m :: m in usable ==> m in messages && IsAssignmentMessage(m) && m.id !in t.invalid
    ensures ChainComplete(t, usable, assignment)
  {
    hide AllStated;
    hide AllLinked;
    var ids := Operations(t.events, assignment);
    assert AssignmentOk(t, usable, assignment);
    if ids == [] {
      forall m, b | m in usable
        ensures !Roots(m, assignment, b, m.id)
      {
        assert Step(t, m) == t;
        if EnvelopeOf(m).assignment == assignment { NoRootLeft(t, m); }
      }
      var none := Binding("", "", false, None);
      assert IsChain(usable, assignment, none, ids);
    } else {
      var b := t.assignments[assignment].binding;
      forall m | m in usable
        ensures !Follows(m, assignment, b, ids[|ids| - 1], m.id)
      {
        assert Step(t, m) == t;
        NoSuccessorLeft(t, usable, assignment, m);
      }
      assert IsComplete(usable, assignment, b, ids);
    }
  }

  // ---- Runs ----

  // messages is the table in (created_at, message_id) order, the order in which every loop reads it.
  datatype Plane = Plane(tables: Tables, messages: seq<Message>, identities: set<string>)

  predicate ReadBefore(a: Message, b: Message) {
    a.createdAt < b.createdAt || (a.createdAt == b.createdAt && Leq(a.id, b.id))
  }

  function InOrder(messages: seq<Message>, m: Message): seq<Message> {
    if messages == [] then [m]
    else if ReadBefore(messages[0], m) then [messages[0]] + InOrder(messages[1..], m)
    else [m] + messages
  }

  lemma {:induction false} InOrderMembers(messages: seq<Message>, m: Message)
    ensures forall n :: n in InOrder(messages, m) <==> n in messages || n == m
  {
    if messages != [] && ReadBefore(messages[0], m) { InOrderMembers(messages[1..], m); }
  }

  predicate Ordered(messages: seq<Message>) {
    forall i, j :: 0 <= i < j < |messages| ==> ReadBefore(messages[i], messages[j])
  }

  lemma {:induction false} InOrderKeepsOrder(messages: seq<Message>, m: Message)
    requires Ordered(messages)
    ensures Ordered(InOrder(messages, m))
  {
    if messages != [] {
      var first := messages[0];
      if ReadBefore(first, m) {
        InOrderKeepsOrder(messages[1..], m);
        InOrderMembers(messages[1..], m);
        forall n | n in InOrder(messages[1..], m)
          ensures ReadBefore(first, n)
        {
          if n != m { var i :| 0 <= i < |messages[1..]| && messages[1..][i] == n; }
        }
      } else {
        ReadBeforeTotal(first, m);
        forall n | n in messages
          ensures ReadBefore(m, n)
        {
          ReadBeforeTransitive(m, first, n);
        }
      }
    }
  }

  lemma ReadBeforeTotal(a: Message, b: Message)
    ensures ReadBefore(a, b) || ReadBefore(b, a)
  {
    LeqTotal(a.id, b.id);
  }

  lemma ReadBeforeTransitive(a: Message, b: Message, c: Message)
    requires ReadBefore(a, b)
    ensures ReadBefore(b, c) ==> ReadBefore(a, c)
  {
    if Leq(a.id, b.id) && Leq(b.id, c.id) { LeqTransitive(a.id, b.id, c.id); }
  }

  // SetIdentities: an identity that some assignment refers to cannot be removed.
  datatype Op = Insert(message: Message) | Reconcile | SetIdentities(identities: set<string>)

  predicate Legal(p: Plane, op: Op) {
    match op
    case Insert(m) => forall n :: n in p.messages ==> n.id != m.id
    case Reconcile => true
    case SetIdentities(identities) => forall a :: a in p.tables.assignments ==> p.tables.assignments[a].binding.assignee in identities
  }

  // The insert trigger reconciles.
  function Next(p: Plane, op: Op): Plane {
    match op
    case Insert(m) =>
      var messages := InOrder(p.messages, m);
      p.(messages := messages, tables := Reconciled(p.tables, messages, p.identities))
    case Reconcile => p.(tables := Reconciled(p.tables, p.messages, p.identities))
    case SetIdentities(identities) => p.(identities := identities)
  }

  predicate LegalRun(p: Plane, ops: seq<Op>)
    decreases |ops|
  {
    ops == [] || (Legal(p, ops[0]) && LegalRun(Next(p, ops[0]), ops[1..]))
  }

  function Run(p: Plane, ops: seq<Op>): Plane
    decreases |ops|
  {
    if ops == [] then p else Run(Next(p, ops[0]), ops[1..])
  }

  // ---- Conflicts stay conflicts ----

  // The message was found in conflict for a reason that no later event removes.
  predicate InConflict(t: Tables, m: Message) {
    var e := EnvelopeOf(m);
    && !Applied(t.events, m)
    && e.assignment in t.assignments
    && (|| e.event == "ASSIGNED"
        || t.assignments[e.assignment].binding != e.binding
        || (var k := FindEvent(t.events, e.assignment, e.predecessor); k.Some? && k.value < t.assignments[e.assignment].current))
  }

  ghost predicate ConflictsHold(t: Tables, messages: set<Message>) {
    && (forall m :: m in messages && m.id in t.conflicts ==> InConflict(t, m))
    && (forall id :: id in t.conflicts ==> exists m :: m in messages && m.id == id)
  }

  // A message in conflict is not projected.
  lemma ConflictBlocks(t: Tables, m: Message)
    requires InConflict(t, m)
    ensures Step(t, m).events == t.events && Step(t, m).assignments == t.assignments
  {
    hide EnvelopeOf;
    hide FindEvent;
  }

  // A step that projects adds one event, of the message, and moves at most its assignment on to it.
  lemma StepAppends(t: Tables, n: Message)
    requires |Step(t, n).events| > |t.events|
    ensures var u := Step(t, n);
            && u.events == t.events + [u.events[|t.events|]]
            && u.events[|t.events|].operation == n.id && u.events[|t.events|].assignment == EnvelopeOf(n).assignment
            && !Applied(t.events, n)
            && forall a :: a in t.assignments ==>
                             && a in u.assignments && u.assignments[a].binding == t.assignments[a].binding
                             && (u.assignments[a].current == t.assignments[a].current || u.assignments[a].current == |t.events|)
  {
    hide EnvelopeOf;
    hide FindEvent;
    hide IsAssignmentMessage;
  }

  lemma InConflictKept(t: Tables, messages: set<Message>, n: Message, m: Message)
    requires DistinctIds(messages) && m in messages && n in messages && InConflict(t, m)
    ensures InConflict(Step(t, n), m)
  {
    hide EnvelopeOf;
    hide FindEvent;
    hide Step;
    var u := Step(t, n);
    StepExtends(t, n);
    if n == m {
      ConflictBlocks(t, m);
    } else if |u.events| > |t.events| {
      StepAppends(t, n);
      var e, a := u.events[|t.events|], EnvelopeOf(m).assignment;
      FindAppended(t.events, e, a, m.id);
      FindAppended(t.events, e, a, EnvelopeOf(m).predecessor);
    }
  }

  lemma FindAppended(events: seq<AssignmentEvent>, e: AssignmentEvent, assignment: string, operation: string)
    ensures FindEvent(events + [e], assignment, operation)
         == if e.assignment == assignment && e.operation == operation then Some(|events|) else FindEvent(events, assignment, operation)
  {
    assert (events + [e])[..|events|] == events;
  }

  // What a step newly reports is a lasting conflict.
  lemma ReportedIsConflict(t: Tables, usable: set<Message>, m: Message)
    requires ChainInv(t, usable) && m.id !in t.conflicts && m.id in Step(t, m).conflicts
    ensures InConflict(Step(t, m), m)
  {
    hide EnvelopeOf;
    hide IsChain;
    assert AssignmentOk(t, usable, EnvelopeOf(m).assignment);
  }

  lemma StepKeepsConflicts(t: Tables, usable: set<Message>, messages: set<Message>, n: Message)
    requires ChainInv(t, usable) && DistinctIds(messages) && n in messages && ConflictsHold(t, messages)
    ensures ConflictsHold(Step(t, n), messages)
  {
    var u := Step(t, n);
    forall m | m in messages && m.id in u.conflicts
      ensures InConflict(u, m)
    {
      if m.id in t.conflicts {
        InConflictKept(t, messages, n, m);
      } else {
        OnlyItselfReported(t, n, m.id);
        ReportedIsConflict(t, usable, n);
      }
    }
    forall id | id in u.conflicts
      ensures exists m :: m in messages && m.id == id
    {
      if id !in t.conflicts { OnlyItselfReported(t, n, id); }
    }
  }

  lemma OnlyItselfReported(t: Tables, n: Message, id: string)
    requires id !in t.conflicts && id in Step(t, n).conflicts
    ensures id == n.id
  {
    hide EnvelopeOf;
    hide FindEvent;
  }

  lemma {:induction false} PassKeepsConflicts(t: Tables, usable: set<Message>, all: set<Message>, messages: seq<Message>)
    requires ChainInv(t, usable) && DistinctIds(all) && ConflictsHold(t, all)
    requires forall m :: m in messages ==> m in all
    requires forall m :: m in messages && IsAssignmentMessage(m) && m.id !in t.invalid ==> m in usable
    ensures ConflictsHold(Pass(t, messages), all)
    decreases |messages|
  {
    hide ChainInv;
    hide Step;
    hide ConflictsHold;
    if messages != [] {
      StepKeepsInv(t, usable, messages[0]);
      StepKeepsConflicts(t, usable, all, messages[0]);
      StepExtends(t, messages[0]);
      PassKeepsConflicts(Step(t, messages[0]), usable, all, messages[1..]);
    }
  }

  lemma {:induction false} FixedPointKeepsConflicts(t: Tables, usable: set<Message>, all: set<Message>, messages: seq<Message>)
    requires ChainInv(t, usable) && DistinctIds(all) && ConflictsHold(t, all)
    requires forall m :: m in messages ==> m in all
    requires forall m :: m in messages && IsAssignmentMessage(m) && m.id !in t.invalid ==> m in usable
    ensures ConflictsHold(FixedPoint(t, messages), all)
    decreases Unapplied(t.events, messages)
  {
    hide ChainInv;
    hide Pass;
    hide Unapplied;
    hide ConflictsHold;
    var u := Pass(t, messages);
    PassKeepsInv(t, usable, messages);
    PassKeepsConflicts(t, usable, all, messages);
    PassExtends(t, messages);
    if |u.events| > |t.events| {
      PassProgress(t, messages);
      FixedPointKeepsConflicts(u, usable, all, messages);
    }
  }

  // The messages of the assignments that exist.
  predicate InUse(t: Tables, m: Message) {
    BelongsTo(t, m, EnvelopeOf(m).assignment)
  }

  // The chains stand on any set of messages that keeps those in use.
  lemma ChainInvMoved(t: Tables, usable: set<Message>, others: set<Message>)
    requires ChainInv(t, usable) && forall m :: m in usable && InUse(t, m) ==> m in others
    ensures ChainInv(t, others)
  {
    hide EnvelopeOf;
    hide IsCurrent;
    forall a
      ensures AssignmentOk(t, others, a)
    {
      assert AssignmentOk(t, usable, a);
      if a in t.assignments { ChainMoved(t, usable, others, a); }
    }
    forall k | 0 <= k < |t.events|
      ensures StatesMessage(t, others, t.events[k])
    {
      assert StatesMessage(t, usable, t.events[k]);
      var n :| n in usable && n.id == t.events[k].operation && EnvelopeOf(n).state == t.events[k].toState && BelongsTo(t, n, t.events[k].assignment);
      assert InUse(t, n);
    }
  }

  lemma ChainMoved(t: Tables, usable: set<Message>, others: set<Message>, a: string)
    requires a in t.assignments && IsChain(usable, a, t.assignments[a].binding, Operations(t.events, a))
    requires forall m :: m in usable && InUse(t, m) ==> m in others
    ensures IsChain(others, a, t.assignments[a].binding, Operations(t.events, a))
  {
    hide EnvelopeOf;
    var b, ids := t.assignments[a].binding, Operations(t.events, a);
    forall i | 0 <= i < |ids|
      ensures Link(others, a, b, ids, i)
    {
      var m := ChainMessage(usable, a, b, ids, i);
      assert InUse(t, m);
    }
  }

  // ---- The invariant of every run ----

  ghost function All(p: Plane): set<Message> {
    set m | m in p.messages
  }

  ghost function Projectable(p: Plane): set<Message> {
    Usable(p.tables, p.messages, p.identities)
  }

  ghost predicate PlaneInv(p: Plane) {
    DistinctIds(All(p)) && ChainInv(p.tables, Projectable(p)) && ConflictsHold(p.tables, All(p))
  }

  // What a reconcile keeps of the tables, for the messages that there are.
  ghost predicate TablesInv(t: Tables, messages: seq<Message>, identities: set<string>) {
    var all := set m | m in messages;
    DistinctIds(all) && ChainInv(t, Usable(t, messages, identities)) && ConflictsHold(t, all)
  }

  lemma ObserveInvalidKeepsUsable(t: Tables, messages: seq<Message>, identities: set<string>)
    requires DistinctIds(set m | m in messages)
    ensures Usable(ObserveInvalid(t, messages, identities), messages, identities) == Usable(t, messages, identities)
  {
    hide Malformed;
    var i := ObserveInvalid(t, messages, identities);
    forall m | m in Usable(t, messages, identities)
      ensures m.id !in i.invalid
    {
      assert forall n :: n in messages && n.id == m.id ==> n == m;
    }
  }

  lemma ConflictsHoldSame(t: Tables, u: Tables, all: set<Message>)
    requires ConflictsHold(t, all) && u.events == t.events && u.assignments == t.assignments && u.conflicts == t.conflicts
    ensures ConflictsHold(u, all)
  {
    hide EnvelopeOf;
  }

  lemma ReconcileKeepsInv(t: Tables, messages: seq<Message>, identities: set<string>)
    requires TablesInv(t, messages, identities)
    ensures TablesInv(Reconciled(t, messages, identities), messages, identities)
  {
    hide ChainInv;
    hide ConflictsHold;
    hide Malformed;
    hide FixedPoint;
    var all := set m | m in messages;
    var usable := Usable(t, messages, identities);
    var i := ObserveInvalid(t, messages, identities);
    var f := FixedPoint(i, messages);
    var r := ObservePending(f, messages);
    ObserveInvalidKeepsUsable(t, messages, identities);
    ObservationsKeepInv(t, i, usable);
    ConflictsHoldSame(t, i, all);
    FixedPointKeepsInv(i, usable, messages);
    FixedPointKeepsConflicts(i, usable, all, messages);
    FixedPointInvalid(i, messages);
    ObservationsKeepInv(f, r, usable);
    ConflictsHoldSame(f, r, all);
    assert Usable(r, messages, identities) == usable;
  }

  lemma InsertKeepsInv(p: Plane, m: Message)
    requires TablesInv(p.tables, p.messages, p.identities) && Legal(p, Insert(m))
    ensures TablesInv(p.tables, InOrder(p.messages, m), p.identities)
  {
    hide ChainInv;
    hide Malformed;
    hide InConflict;
    var longer := InOrder(p.messages, m);
    InOrderMembers(p.messages, m);
    var all, more := set n | n in p.messages, set n | n in longer;
    assert more == all + {m};
    assert Usable(p.tables, p.messages, p.identities) <= Usable(p.tables, longer, p.identities);
    ChainInvMoved(p.tables, Usable(p.tables, p.messages, p.identities), Usable(p.tables, longer, p.identities));
  }

  // A well-formed message in use stays well formed while its assignee is registered.
  lemma StaysWellFormed(m: Message, identities: set<string>, others: set<string>)
    requires !Malformed(m, identities) && EnvelopeOf(m).binding.assignee in others
    ensures !Malformed(m, others)
  {
  }

  lemma IdentitiesKeepInv(p: Plane, identities: set<string>)
    requires TablesInv(p.tables, p.messages, p.identities) && Legal(p, SetIdentities(identities))
    ensures TablesInv(p.tables, p.messages, identities)
  {
    hide ChainInv;
    hide Malformed;
    hide ConflictsHold;
    hide EnvelopeOf;
    var t := p.tables;
    forall m | m in Usable(t, p.messages, p.identities) && InUse(t, m)
      ensures m in Usable(t, p.messages, identities)
    {
      StaysWellFormed(m, p.identities, identities);
    }
    ChainInvMoved(t, Usable(t, p.messages, p.identities), Usable(t, p.messages, identities));
  }

  lemma NextKeepsInv(p: Plane, op: Op)
    requires PlaneInv(p) && Legal(p, op)
    ensures PlaneInv(Next(p, op))
  {
    hide ChainInv;
    hide ConflictsHold;
    hide Reconciled;
    match op {
      case Insert(m) =>
        InsertKeepsInv(p, m);
        ReconcileKeepsInv(p.tables, InOrder(p.messages, m), p.identities);
      case Reconcile => ReconcileKeepsInv(p.tables, p.messages, p.identities);
      case SetIdentities(identities) => IdentitiesKeepInv(p, identities);
    }
  }

  lemma {:induction false} RunKeepsInv(p: Plane, ops: seq<Op>)
    requires PlaneInv(p) && LegalRun(p, ops)
    ensures PlaneInv(Run(p, ops))
    decreases |ops|
  {
    hide PlaneInv;
    hide Next;
    if ops != [] {
      NextKeepsInv(p, ops[0]);
      RunKeepsInv(Next(p, ops[0]), ops[1..]);
    }
  }

  lemma EmptyInv(identities: set<string>)
    ensures PlaneInv(Plane(EMPTY, [], identities))
  {
  }

  // ---- Main results ----

  /** In every reachable state each assignment's events are one chain of messages from its root, in which each
      event starts where the one before it ended, and the assignment row shows the last of them. */
  lemma EventsFormChains(identities: set<string>, ops: seq<Op>, assignment: string)
    requires LegalRun(Plane(EMPTY, [], identities), ops)
    ensures var p := Run(Plane(EMPTY, [], identities), ops);
            && AllLinked(p.tables.events)
            && AssignmentOk(p.tables, Projectable(p), assignment)
  {
    EmptyInv(identities);
    RunKeepsInv(Plane(EMPTY, [], identities), ops);
  }

  /** After a reconcile no message that can be projected continues a chain, or roots a missing one. */
  lemma ReconciledChainsComplete(p: Plane, assignment: string)
    requires PlaneInv(p)
    ensures var q := Next(p, Reconcile); PlaneInv(q) && ChainComplete(q.tables, Projectable(q), assignment)
  {
    hide ChainInv;
    hide ConflictsHold;
    hide Reconciled;
    hide Malformed;
    NextKeepsInv(p, Reconcile);
    ReconciledSettles(p.tables, p.messages, p.identities);
    var q := Next(p, Reconcile);
    assert Projectable(q) <= All(q);
    SettledIsComplete(q.tables, Projectable(q), q.messages, assignment);
  }

  lemma ConflictStays(p: Plane, op: Op, m: Message)
    requires PlaneInv(p) && Legal(p, op) && m in p.messages && m.id in p.tables.conflicts
    ensures var q := Next(p, op); PlaneInv(q) && m in q.messages && m.id in q.tables.conflicts
  {
    hide PlaneInv;
    hide FixedPoint;
    hide Malformed;
    NextKeepsInv(p, op);
    if op.Insert? { InOrderMembers(p.messages, op.message); }
    if !op.SetIdentities? {
      var messages := Next(p, op).messages;
      FixedPointConflicts(ObserveInvalid(p.tables, messages, p.identities), messages);
    }
  }

  lemma {:induction false} FixedPointConflicts(t: Tables, messages: seq<Message>)
    ensures t.conflicts.Keys <= FixedPoint(t, messages).conflicts.Keys
    decreases Unapplied(t.events, messages)
  {
    var u := Pass(t, messages);
    PassConflictsGrow(t, messages);
    if |u.events| > |t.events| {
      PassProgress(t, messages);
      FixedPointConflicts(u, messages);
    }
  }

  /** A message that was reported as a conflict is never projected, whatever arrives later. */
  lemma {:induction false} ConflictNeverProjected(p: Plane, ops: seq<Op>, m: Message)
    requires PlaneInv(p) && LegalRun(p, ops) && m in p.messages && m.id in p.tables.conflicts
    ensures !Applied(Run(p, ops).tables.events, m)
    decreases |ops|
  {
    hide ChainInv;
    hide Next;
    if ops != [] {
      ConflictStays(p, ops[0], m);
      ConflictNeverProjected(Next(p, ops[0]), ops[1..], m);
    } else {
      assert m in All(p);
    }
  }

  // ---- Any order of arrival gives the same chains ----

  function Inserts(messages: seq<Message>): seq<Op> {
    if messages == [] then [] else [Insert(messages[0])] + Inserts(messages[1..])
  }

  // With the identities fixed, the messages observed as invalid are those that are.
  ghost predicate InvalidExact(p: Plane) {
    forall id :: id in p.tables.invalid <==> exists m :: m in p.messages && m.id == id && Malformed(m, p.identities)
  }

  ghost predicate UpToDate(p: Plane) {
    PlaneInv(p) && Settled(p.tables, p.messages) && InvalidExact(p)
  }

  ghost function WellFormed(messages: set<Message>, identities: set<string>): set<Message> {
    set m | m in messages && IsAssignmentMessage(m) && !Malformed(m, identities)
  }

  lemma ProjectableIsWellFormed(p: Plane)
    requires UpToDate(p)
    ensures Projectable(p) == WellFormed(All(p), p.identities)
  {
    hide ChainInv;
    hide ConflictsHold;
    hide Malformed;
    hide Settled;
    forall m | m in WellFormed(All(p), p.identities)
      ensures m.id !in p.tables.invalid
    {
      assert forall n :: n in p.messages && n.id == m.id ==> n in All(p) && m in All(p);
    }
  }

  lemma ReconciledInvalid(t: Tables, messages: seq<Message>, identities: set<string>)
    ensures Reconciled(t, messages, identities).invalid == ObserveInvalid(t, messages, identities).invalid
  {
    FixedPointInvalid(ObserveInvalid(t, messages, identities), messages);
  }

  lemma ArrivalKeepsUpToDate(p: Plane, m: Message)
    requires UpToDate(p) && Legal(p, Insert(m))
    ensures UpToDate(Next(p, Insert(m))) && All(Next(p, Insert(m))) == All(p) + {m}
  {
    hide PlaneInv;
    hide Settled;
    hide Reconciled;
    hide Malformed;
    NextKeepsInv(p, Insert(m));
    InOrderMembers(p.messages, m);
    var longer := InOrder(p.messages, m);
    ReconciledSettles(p.tables, longer, p.identities);
    ReconciledInvalid(p.tables, longer, p.identities);
    var q := Next(p, Insert(m));
    forall id | id in q.tables.invalid
      ensures exists n :: n in q.messages && n.id == id && Malformed(n, p.identities)
    {
      if id in p.tables.invalid {
        var n :| n in p.messages && n.id == id && Malformed(n, p.identities);
        assert n in q.messages;
      }
    }
  }

  lemma {:induction false} ArrivalsUpToDate(p: Plane, arrivals: seq<Message>)
    requires UpToDate(p) && LegalRun(p, Inserts(arrivals))
    ensures UpToDate(Run(p, Inserts(arrivals)))
    ensures All(Run(p, Inserts(arrivals))) == All(p) + set m | m in arrivals
    ensures Run(p, Inserts(arrivals)).identities == p.identities
    decreases |arrivals|
  {
    hide UpToDate;
    hide Reconciled;
    if arrivals != [] {
      var ops := Inserts(arrivals);
      assert ops[0] == Insert(arrivals[0]) && ops[1..] == Inserts(arrivals[1..]);
      ArrivalKeepsUpToDate(p, arrivals[0]);
      ArrivalsUpToDate(Next(p, ops[0]), arrivals[1..]);
    }
  }

  // The two planes show the same chain of the assignment, and the same row but for the event's number.
  predicate ShowTheSame(t: Tables, u: Tables, assignment: string) {
    && Operations(t.events, assignment) == Operations(u.events, assignment)
    && (assignment in t.assignments <==> assignment in u.assignments)
    && (assignment in t.assignments ==>
          var a, b := t.assignments[assignment], u.assignments[assignment];
          a.binding == b.binding && a.state == b.state && a.source == b.source)
  }

  lemma CompletePlanesAgree(t: Tables, u: Tables, usable: set<Message>, assignment: string)
    requires ChainInv(t, usable) && ChainInv(u, usable) && DistinctIds(usable) && NoRivals(usable)
    requires ChainComplete(t, usable, assignment) && ChainComplete(u, usable, assignment)
    ensures ShowTheSame(t, u, assignment)
  {
    var ids, others := Operations(t.events, assignment), Operations(u.events, assignment);
    hide EnvelopeOf;
    hide NoRivals;
    hide IsComplete;
    hide AllLinked;
    var b :| IsChain(usable, assignment, b, ids) && IsComplete(usable, assignment, b, ids)
             && (assignment in t.assignments <==> ids != [])
             && (assignment in t.assignments ==> t.assignments[assignment].binding == b);
    var c :| IsChain(usable, assignment, c, others) && IsComplete(usable, assignment, c, others)
             && (assignment in u.assignments <==> others != [])
             && (assignment in u.assignments ==> u.assignments[assignment].binding == c);
    CompleteChainUnique(usable, assignment, b, ids, c, others);
    assert AssignmentOk(t, usable, assignment) && AssignmentOk(u, usable, assignment);
    hide IsChain;
    if assignment in t.assignments {
      var k, l := t.assignments[assignment].current, u.assignments[assignment].current;
      assert StatesMessage(t, usable, t.events[k]) && StatesMessage(u, usable, u.events[l]);
      var m :| m in usable && m.id == t.events[k].operation && EnvelopeOf(m).state == t.events[k].toState && BelongsTo(t, m, assignment);
      var n :| n in usable && n.id == u.events[l].operation && EnvelopeOf(n).state == u.events[l].toState && BelongsTo(u, n, assignment);
      assert m == n;
    }
  }

  lemma UpToDateComplete(p: Plane, assignment: string)
    requires UpToDate(p)
    ensures ChainComplete(p.tables, Projectable(p), assignment)
  {
    hide ChainInv;
    hide ConflictsHold;
    hide Malformed;
    hide Settled;
    assert Projectable(p) <= All(p);
    SettledIsComplete(p.tables, Projectable(p), p.messages, assignment);
  }

  lemma UpToDateAgree(p: Plane, q: Plane, assignment: string)
    requires UpToDate(p) && UpToDate(q) && All(p) == All(q) && p.identities == q.identities
    requires NoRivals(WellFormed(All(p), p.identities))
    ensures ShowTheSame(p.tables, q.tables, assignment)
  {
    ProjectableIsWellFormed(p);
    ProjectableIsWellFormed(q);
    UpToDateComplete(p, assignment);
    UpToDateComplete(q, assignment);
    hide ChainInv;
    hide Malformed;
    hide NoRivals;
    assert Projectable(p) <= All(p);
    CompletePlanesAgree(p.tables, q.tables, Projectable(p), assignment);
  }

  lemma OnceIsUpToDate(messages: seq<Message>, identities: set<string>)
    requires DistinctIds(set m | m in messages)
    ensures UpToDate(Next(Plane(EMPTY, messages, identities), Reconcile))
  {
    var p := Plane(EMPTY, messages, identities);
    assert PlaneInv(p);
    NextKeepsInv(p, Reconcile);
    hide PlaneInv;
    hide Settled;
    hide Reconciled;
    hide Malformed;
    ReconciledSettles(EMPTY, messages, identities);
    ReconciledInvalid(EMPTY, messages, identities);
  }

  lemma EmptyUpToDate(identities: set<string>)
    ensures UpToDate(Plane(EMPTY, [], identities))
  {
    EmptyInv(identities);
  }

  lemma UpToDateDistinct(p: Plane)
    requires UpToDate(p)
    ensures DistinctIds(All(p))
  {
  }

  /** Without rivals, reconciling after every insert in any order of arrival shows the same chains and the same
      rows as one reconcile of all the messages at the end. */
  lemma ArrivalOrderIrrelevant(identities: set<string>, arrivals: seq<Message>, messages: seq<Message>, assignment: string)
    requires LegalRun(Plane(EMPTY, [], identities), Inserts(arrivals))
    requires forall m :: m in messages <==> m in arrivals
    requires NoRivals(WellFormed((set m | m in arrivals), identities))
    ensures ShowTheSame(Run(Plane(EMPTY, [], identities), Inserts(arrivals)).tables,
                        Reconciled(EMPTY, messages, identities), assignment)
  {
    hide UpToDate;
    hide Reconciled;
    hide NoRivals;
    hide Malformed;
    var start := Plane(EMPTY, [], identities);
    EmptyUpToDate(identities);
    ArrivalsUpToDate(start, arrivals);
    var p := Run(start, Inserts(arrivals));
    var all := set m | m in messages;
    assert All(p) == set m | m in arrivals;
    assert All(p) == all;
    UpToDateDistinct(p);
    OnceIsUpToDate(messages, identities);
    UpToDateAgree(p, Next(Plane(EMPTY, messages, identities), Reconcile), assignment);
  }

  // ---- The stored procedure ----

  datatype Counts = Counts(assignments: int, events: int, invalid: int, pending: int, conflicts: int)

  // What a run added to each table.
  function Added(t: Tables, u: Tables): Counts {
    Counts(|u.assignments| - |t.assignments|, |u.events| - |t.events|, |u.invalid| - |t.invalid|,
           |u.pending| - |t.pending|, |u.conflicts| - |t.conflicts|)
  }

  // One more message: a set of observed ids grows by its id, if it is to be observed and was not yet.
  lemma ObservedNext(before: set<string>, ids: set<string>, next: set<string>, id: string, observe: bool)
    requires next == ids + (if observe then {id} else {})
    ensures before + next == if observe && id !in before + ids then before + ids + {id} else before + ids
    ensures |before + next| == |before + ids| + if observe && id !in before + ids then 1 else 0
  {
    if observe {
      assert before + next == before + ids + {id};
    } else {
      assert before + next == before + ids;
    }
  }

  lemma MalformedNext(before: set<string>, messages: seq<Message>, identities: set<string>, i: nat)
    requires i < |messages|
    ensures var seen, m := before + MalformedIds(messages[..i], identities), messages[i];
            var next, added := before + MalformedIds(messages[..i + 1], identities), Malformed(m, identities) && m.id !in seen;
            next == (if added then seen + {m.id} else seen) && |next| == |seen| + if added then 1 else 0
  {
    hide Malformed;
    assert messages[..i + 1] == messages[..i] + [messages[i]];
    ObservedNext(before, MalformedIds(messages[..i], identities), MalformedIds(messages[..i + 1], identities),
                 messages[i].id, Malformed(messages[i], identities));
  }

  lemma WaitingNext(before: set<string>, messages: seq<Message>, t: Tables, i: nat)
    requires i < |messages|
    ensures var seen, m := before + WaitingIds(t, messages[..i]), messages[i];
            var next, added := before + WaitingIds(t, messages[..i + 1]), Waits(t, m) && m.id !in seen;
            next == (if added then seen + {m.id} else seen) && |next| == |seen| + if added then 1 else 0
  {
    hide Waits;
    assert messages[..i + 1] == messages[..i] + [messages[i]];
    ObservedNext(before, WaitingIds(t, messages[..i]), WaitingIds(t, messages[..i + 1]), messages[i].id, Waits(t, messages[i]));
  }

  lemma NothingYet(before: set<string>, t: Tables, identities: set<string>)
    ensures before + MalformedIds([], identities) == before && before + WaitingIds(t, []) == before
  {
  }

  class Projection {
    var messages: seq<Message>
    var identities: set<string>
    var assignments: map<string, Assignment>
    var events: seq<AssignmentEvent>
    var invalid: set<string>
    var conflicts: map<string, ConflictReason>
    var pending: set<string>

    constructor (identities: set<string>)
      ensures Contents() == EMPTY && messages == [] && this.identities == identities
    {
      this.messages, this.identities := [], identities;
      assignments, events, invalid, conflicts, pending := map[], [], {}, map[], {};
    }

    function Contents(): Tables
      reads this
    {
      Tables(assignments, events, invalid, conflicts, pending)
    }

    method ObserveMalformed() returns (inserted: nat)
      modifies this`invalid
      ensures Contents() == ObserveInvalid(old(Contents()), messages, identities)
      ensures inserted == |invalid| - |old(invalid)|
    {
      hide Malformed;
      hide MalformedIds;
      inserted := 0;
      NothingYet(invalid, Contents(), identities);
      assert messages[..0] == [];
      for i := 0 to |messages|
        invariant invalid == old(invalid) + MalformedIds(messages[..i], identities)
        invariant inserted == |invalid| - |old(invalid)|
      {
        var m := messages[i];
        MalformedNext(old(invalid), messages, identities, i);
        if Malformed(m, identities) && m.id !in invalid {
          invalid := invalid + {m.id};
          inserted := inserted + 1;
        }
      }
      assert messages[..|messages|] == messages;
    }

    method ReportConflict(id: string, reason: ConflictReason) returns (inserted: nat)
      modifies this`conflicts
      ensures Contents() == Conflict(old(Contents()), id, reason)
      ensures inserted == |conflicts| - |old(conflicts)|
    {
      inserted := 0;
      if id !in conflicts {
        conflicts := conflicts[id := reason];
        inserted := 1;
      }
    }

    // One round of the inner loop: what it projects and reports.
    method ProjectMessage(m: Message) returns (newAssignments: nat, newEvents: nat, newConflicts: nat)
      modifies this`assignments, this`events, this`conflicts
      ensures Contents() == Step(old(Contents()), m)
      ensures newAssignments == |assignments| - |old(assignments)|
      ensures newEvents == |events| - |old(events)|
      ensures newConflicts == |conflicts| - |old(conflicts)|
    {
      newAssignments, newEvents, newConflicts := 0, 0, 0;
      if !IsAssignmentMessage(m) || m.id in invalid { return; }
      var e := EnvelopeOf(m);
      if FindEvent(events, e.assignment, m.id).Some? { return; }
      if e.event == "ASSIGNED" {
        if e.assignment in assignments {
          newConflicts := ReportConflict(m.id, RootAlreadyExists);
          return;
        }
        assignments := assignments[e.assignment := Assignment(e.binding, e.state, |events|, m.id)];
        events := events + [AssignmentEvent(e.assignment, "DRAFTED", e.state, None, m.id)];
        newAssignments, newEvents := 1, 1;
        return;
      }
      if e.assignment !in assignments { return; }
      var a := assignments[e.assignment];
      if a.binding != e.binding {
        newConflicts := ReportConflict(m.id, BindingMismatch);
        return;
      }
      var predecessor := FindEvent(events, e.assignment, e.predecessor);
      if predecessor.None? { return; }
      if predecessor.value != a.current {
        newConflicts := ReportConflict(m.id, PredecessorNotCurrent);
        return;
      }
      assignments := assignments[e.assignment := a.(state := e.state, current := |events|)];
      events := events + [AssignmentEvent(e.assignment, a.state, e.state, predecessor, m.id)];
      newEvents := 1;
    }

    method ProjectToFixedPoint() returns (newAssignments: nat, newEvents: nat, newConflicts: nat)
      modifies this`assignments, this`events, this`conflicts
      ensures Contents() == FixedPoint(old(Contents()), messages)
      ensures newAssignments == |assignments| - |old(assignments)|
      ensures newEvents == |events| - |old(events)|
      ensures newConflicts == |conflicts| - |old(conflicts)|
    {
      newAssignments, newEvents, newConflicts := 0, 0, 0;
      var progress := true;
      while progress
        invariant progress ==> FixedPoint(Contents(), messages) == FixedPoint(old(Contents()), messages)
        invariant !progress ==> Contents() == FixedPoint(old(Contents()), messages)
        invariant newAssignments == |assignments| - |old(assignments)|
        invariant newEvents == |events| - |old(events)|
        invariant newConflicts == |conflicts| - |old(conflicts)|
        decreases Unapplied(events, messages), progress
      {
        progress := false;
        ghost var before := Contents();
        for i := 0 to |messages|
          invariant Pass(Contents(), messages[i..]) == Pass(before, messages)
          invariant |events| >= |before.events| && (progress <==> |events| > |before.events|)
          invariant newAssignments == |assignments| - |old(assignments)|
          invariant newEvents == |events| - |old(events)|
          invariant newConflicts == |conflicts| - |old(conflicts)|
        {
          assert messages[i..][0] == messages[i] && messages[i..][1..] == messages[i + 1..];
          var addedAssignments, addedEvents, addedConflicts := ProjectMessage(messages[i]);
          progress := progress || addedEvents > 0;
          newAssignments, newEvents, newConflicts := newAssignments + addedAssignments, newEvents + addedEvents, newConflicts + addedConflicts;
        }
        assert Contents() == Pass(before, messages);
        PassExtends(before, messages);
        if progress { PassProgress(before, messages); }
      }
    }

    method ObserveWaiting() returns (inserted: nat)
      modifies this`pending
      ensures Contents() == ObservePending(old(Contents()), messages)
      ensures inserted == |pending| - |old(pending)|
    {
      hide Waits;
      hide WaitingIds;
      var t := Contents();
      inserted := 0;
      NothingYet(pending, t, identities);
      assert messages[..0] == [];
      for i := 0 to |messages|
        invariant pending == old(pending) + WaitingIds(t, messages[..i])
        invariant inserted == |pending| - |old(pending)|
      {
        var m := messages[i];
        WaitingNext(old(pending), messages, t, i);
        if Waits(t, m) && m.id !in pending {
          pending := pending + {m.id};
          inserted := inserted + 1;
        }
      }
      assert messages[..|messages|] == messages;
    }

    method Reconcile() returns (counts: Counts)
      modifies this`assignments, this`events, this`invalid, this`conflicts, this`pending
      ensures Contents() == Reconciled(old(Contents()), messages, identities)
      ensures counts == Added(old(Contents()), Contents())
    {
      hide ObserveInvalid;
      hide ObservePending;
      hide FixedPoint;
      var newInvalid := ObserveMalformed();
      var newAssignments, newEvents, newConflicts := ProjectToFixedPoint();
      var newPending := ObserveWaiting();
      counts := Counts(newAssignments, newEvents, newInvalid, newPending, newConflicts);
    }

    // The insert trigger. A message id is a primary key.
    method InsertMessage(m: Message) returns (ok: bool)
      modifies this
      ensures identities == old(identities)
      ensures ok == (forall n :: n in old(messages) ==> n.id != m.id)
      ensures ok ==> Plane(Contents(), messages, identities) == Next(old(Plane(Contents(), messages, identities)), Insert(m))
      ensures !ok ==> Contents() == old(Contents()) && messages == old(messages)
    {
      ok := forall n :: n in messages ==> n.id != m.id;
      if ok {
        messages := InOrder(messages, m);
        var counts := Reconcile();
      }
    }
  }
}
