/** The workstation relay (workstation_relay.py, workstation_relay_state.py): many runs over one durable store, each
    of which may stop after any store write or target call. */
module WorkstationRelay {
  import opened Wrappers

  // ---- Texts ----

  const PROTOCOL := "BT2_WORKSTATION_RELAY_V1"
  const ACK_PROTOCOL := "BT2_WORKSTATION_RELAY_ACK_V1"

  datatype Envelope = Envelope(sender: string, recipient: string, messageId: string, nonce: string, busMessage: string,
                               busCommit: string, body: string, bodySha: string, sha: string)

  function Lines(lines: seq<string>): string {
    if lines == [] then "" else if |lines| == 1 then lines[0] else lines[0] + "\n" + Lines(lines[1..])
  }

  function RenderAck(e: Envelope, status: string): string {
    Lines([ACK_PROTOCOL, "message_id: " + e.messageId, "nonce: " + e.nonce, "body_sha256: " + e.bodySha, "status: " + status])
  }

  datatype AckStatus = ReceivedVerified | HoldSourceUnverified | Mismatch

  function ParseAck(e: Envelope, text: Option<string>): Option<AckStatus> {
    if text.None? then None
    else if text.value == RenderAck(e, "RECEIVED_VERIFIED") then Some(ReceivedVerified)
    else if text.value == RenderAck(e, "HOLD_SOURCE_UNVERIFIED") then Some(HoldSourceUnverified)
    else Some(Mismatch)
  }

  predicate StandsAt(text: string, token: string, i: nat) {
    i + |token| <= |text| && text[i..i + |token|] == token
  }

  predicate Contains(text: string, token: string) {
    exists i :: 0 <= i <= |text| && StandsAt(text, token, i)
  }

  predicate RenderedMatches(e: Envelope, text: Option<string>) {
    && text.Some?
    && Contains(text.value, PROTOCOL)
    && Contains(text.value, "message_id: " + e.messageId)
    && Contains(text.value, "nonce: " + e.nonce)
    && Contains(text.value, "body_sha256: " + e.bodySha)
  }

  predicate OneLine(text: string) {
    forall i :: 0 <= i < |text| ==> text[i] != '\n'
  }

  lemma {:induction false} FirstLine(a: string, b: string, c: string, d: string)
    requires OneLine(a) && OneLine(c) && a + "\n" + b == c + "\n" + d
    ensures a == c && b == d
  {
    var s := a + "\n" + b;
    assert s[|a|] == '\n' && (c + "\n" + d)[|c|] == '\n';
    assert forall i :: 0 <= i < |a| ==> s[i] == a[i];
    assert forall i :: 0 <= i < |c| ==> s[i] == c[i];
    assert |a| == |c|;
    assert a == s[..|a|] && c == s[..|c|];
    assert b == s[|a| + 1..] && d == s[|c| + 1..];
  }

  lemma AfterName(name: string, a: string, b: string)
    requires name + a == name + b
    ensures a == b
  {
    assert a == (name + a)[|name|..];
  }

  // Texts of the same number of lines are equal only line by line; the last line may be anything.
  lemma {:induction false} LinesEqual(a: seq<string>, b: seq<string>)
    requires |a| == |b| > 0 && Lines(a) == Lines(b)
    requires forall i :: 0 <= i < |a| - 1 ==> OneLine(a[i]) && OneLine(b[i])
    ensures a == b
  {
    if |a| > 1 {
      FirstLine(a[0], Lines(a[1..]), b[0], Lines(b[1..]));
      LinesEqual(a[1..], b[1..]);
      assert a == [a[0]] + a[1..] && b == [b[0]] + b[1..];
    }
  }

  /** An acknowledgement answers one envelope alone: equal texts have the same message id, nonce and body digest. */
  lemma AckBindsEnvelope(e: Envelope, f: Envelope, s: string, t: string)
    requires OneLine(e.messageId) && OneLine(e.nonce) && OneLine(e.bodySha)
    requires OneLine(f.messageId) && OneLine(f.nonce) && OneLine(f.bodySha)
    requires RenderAck(e, s) == RenderAck(f, t)
    ensures e.messageId == f.messageId && e.nonce == f.nonce && e.bodySha == f.bodySha && s == t
  {
    var a := [ACK_PROTOCOL, "message_id: " + e.messageId, "nonce: " + e.nonce, "body_sha256: " + e.bodySha, "status: " + s];
    var b := [ACK_PROTOCOL, "message_id: " + f.messageId, "nonce: " + f.nonce, "body_sha256: " + f.bodySha, "status: " + t];
    LinesEqual(a, b);
    AfterName("message_id: ", e.messageId, f.messageId);
    AfterName("nonce: ", e.nonce, f.nonce);
    AfterName("body_sha256: ", e.bodySha, f.bodySha);
    AfterName("status: ", s, t);
    assert a[1] == b[1] && a[2] == b[2] && a[3] == b[3] && a[4] == b[4];
  }

  // ---- Targets ----

  datatype Descriptor = Descriptor(recipient: string, urlPath: string, visibleIdentity: string)

  datatype Snapshot = Snapshot(window: int, urlPath: string, visibleIdentity: string, token: Option<string>)

  // The selectors that the digest hashes; equal digests are equal selectors.
  datatype Digest = Digest(urlPath: string, visibleIdentity: string, token: Option<string>)

  function DigestOf(s: Snapshot): Digest {
    Digest(s.urlPath, s.visibleIdentity, s.token)
  }

  predicate Matches(s: Snapshot, d: Descriptor) {
    s.urlPath == d.urlPath && s.visibleIdentity == d.visibleIdentity
  }

  function Matching(found: seq<Snapshot>, d: Descriptor): (r: seq<Snapshot>)
    ensures forall s :: s in r <==> s in found && Matches(s, d)
  {
    if found == [] then [] else (if Matches(found[0], d) then [found[0]] else []) + Matching(found[1..], d)
  }

  // ---- States and receipts ----

  datatype State =
    | Created | BusBound | TargetDiscovered | TargetVerifiedPrewrite | ComposerPopulated | TargetReverifiedPresubmit
    | Submitted | RenderedReadbackVerified | AckPending
    | AckVerified | AckTimeout | AckMismatch | SourceBusUnverified | TargetNotFound | TargetAmbiguous
    | TargetChangedPreSubmit | ComposerWriteFailed | SubmitNotEstablished | SubmittedUnverified

  // The documented transitions.
  predicate Edge(a: State, b: State) {
    match a
    case Created => b.BusBound? || b.SourceBusUnverified?
    case BusBound => b.TargetDiscovered? || b.TargetNotFound? || b.TargetAmbiguous?
    case TargetDiscovered => b.TargetVerifiedPrewrite? || b.TargetChangedPreSubmit?
    case TargetVerifiedPrewrite => b.ComposerPopulated? || b.ComposerWriteFailed?
    case ComposerPopulated => b.TargetReverifiedPresubmit? || b.TargetChangedPreSubmit?
    case TargetReverifiedPresubmit => b.Submitted? || b.SubmitNotEstablished?
    case Submitted => b.RenderedReadbackVerified? || b.SubmittedUnverified?
    case RenderedReadbackVerified => b.AckPending?
    case AckPending => b.AckVerified? || b.AckTimeout? || b.AckMismatch? || b.SourceBusUnverified?
    case _ => false
  }

  predicate Terminal(s: State) {
    match s
    case Created => false
    case BusBound => false
    case TargetDiscovered => false
    case TargetVerifiedPrewrite => false
    case ComposerPopulated => false
    case TargetReverifiedPresubmit => false
    case Submitted => false
    case RenderedReadbackVerified => false
    case AckPending => false
    case _ => true
  }

  const HAPPY: seq<State> := [
    Created, BusBound, TargetDiscovered, TargetVerifiedPrewrite, ComposerPopulated, TargetReverifiedPresubmit,
    Submitted, RenderedReadbackVerified, AckPending, AckVerified
  ]

  predicate IsPath(transitions: seq<State>) {
    && transitions != [] && transitions[0] == Created
    && forall i :: 0 < i < |transitions| ==> Edge(transitions[i - 1], transitions[i])
  }

  function Last(transitions: seq<State>): State
    requires transitions != []
  {
    transitions[|transitions| - 1]
  }

  datatype Evidence = Evidence(target: Option<Snapshot>, pre: Option<Snapshot>, presubmit: Option<Snapshot>,
                               rendered: Option<string>, renderedVerified: bool, ack: Option<string>, ackStatus: Option<AckStatus>)

  const NO_EVIDENCE := Evidence(None, None, None, None, false, None, None)

  datatype Receipt = Receipt(envelope: Envelope, finalState: State, transitions: seq<State>, evidence: Evidence)

  // ---- The durable store ----

  datatype Row = Row(nonce: string, sha: string, state: State, receipt: Option<Receipt>)

  predicate BoundTo(row: Row, e: Envelope) {
    row.nonce == e.nonce && row.sha == e.sha
  }

  // ---- One run, call by call ----

  datatype Error =
    | TargetRecipientMismatch | MessageIdConflict | AlreadyInProgress(state: State) | RowExists | StateBindingLost | ReceiptBindingLost

  datatype Result = Returned(receipt: Receipt) | Raised(error: Error) | Crashed

  // The next store write or target call of a run.
  datatype Phase =
    | AtLook | AtInsert | AtVerify | AtDiscover | AtActivate | AtSnapshot | AtPopulate | AtResnapshot | AtSubmit
    | AtRead | AtAck
    | Saving(next: State)
    | Finishing(final: State)
    | Ended(result: Result)

  // sent is a history variable: submit has been called.
  datatype Run = Run(envelope: Envelope, descriptor: Descriptor, phase: Phase, transitions: seq<State>, evidence: Evidence, sent: bool)

  // After the state has been saved.
  function Resume(state: State): Phase {
    match state
    case BusBound => AtDiscover
    case TargetDiscovered => AtActivate
    case TargetVerifiedPrewrite => AtPopulate
    case ComposerPopulated => AtResnapshot
    case TargetReverifiedPresubmit => AtSubmit
    case Submitted => AtRead
    case RenderedReadbackVerified => Saving(AckPending)
    case _ => AtAck
  }

  function Go(r: Run, phase: Phase): Run {
    r.(phase := phase)
  }

  function AfterVerify(r: Run, verified: bool): Run {
    Go(r, if verified then Saving(BusBound) else Finishing(SourceBusUnverified))
  }

  function AfterDiscover(r: Run, reply: Option<seq<Snapshot>>): Run {
    if reply.None? then Go(r, Finishing(TargetNotFound))
    else
      var candidates := Matching(reply.value, r.descriptor);
      if candidates == [] then Go(r, Finishing(TargetNotFound))
      else if |candidates| != 1 then Go(r, Finishing(TargetAmbiguous))
      else Go(r.(evidence := r.evidence.(target := Some(candidates[0]))), Saving(TargetDiscovered))
  }

  function AfterActivate(r: Run, raises: bool): Run {
    Go(r, if raises then Finishing(TargetChangedPreSubmit) else AtSnapshot)
  }

  predicate SameWindow(r: Run, s: Snapshot) {
    r.evidence.target.Some? && s.window == r.evidence.target.value.window
  }

  function AfterSnapshot(r: Run, reply: Option<Snapshot>): Run {
    if reply.None? then Go(r, Finishing(TargetChangedPreSubmit))
    else
      var t := r.(evidence := r.evidence.(pre := reply));
      Go(t, if SameWindow(r, reply.value) && Matches(reply.value, r.descriptor) then Saving(TargetVerifiedPrewrite)
            else Finishing(TargetChangedPreSubmit))
  }

  function AfterPopulate(r: Run, raises: bool): Run {
    Go(r, if raises then Finishing(ComposerWriteFailed) else Saving(ComposerPopulated))
  }

  function AfterResnapshot(r: Run, reply: Option<Snapshot>): Run {
    if reply.None? then Go(r, Finishing(TargetChangedPreSubmit))
    else
      var t := r.(evidence := r.evidence.(presubmit := reply));
      Go(t, if SameWindow(r, reply.value) && Matches(reply.value, r.descriptor)
               && r.evidence.pre.Some? && DigestOf(reply.value) == DigestOf(r.evidence.pre.value)
            then Saving(TargetReverifiedPresubmit) else Finishing(TargetChangedPreSubmit))
  }

  function AfterSubmit(r: Run, raises: bool): Run {
    Go(r.(sent := true), if raises then Finishing(SubmitNotEstablished) else Saving(Submitted))
  }

  // One round of the readback loop.
  function AfterRead(r: Run, reply: Option<string>, expired: bool): Run {
    var t := if reply.Some? then r.(evidence := r.evidence.(rendered := reply)) else r;
    if RenderedMatches(r.envelope, reply) then Go(t.(evidence := t.evidence.(renderedVerified := true)), Saving(RenderedReadbackVerified))
    else if expired then Go(t, Finishing(SubmittedUnverified))
    else t
  }

  function AfterAck(r: Run, reply: Option<string>): Run {
    var parsed := ParseAck(r.envelope, reply);
    var t := r.(evidence := r.evidence.(ack := reply, ackStatus := parsed));
    if parsed.None? then Go(t, Finishing(AckTimeout))
    else if parsed.value == Mismatch then Go(t, Finishing(AckMismatch))
    else if parsed.value != ReceivedVerified then Go(t, Finishing(SourceBusUnverified))
    else Go(t, Finishing(AckVerified))
  }

  function ReceiptOf(r: Run, final: State): Receipt {
    Receipt(r.envelope, final, if r.transitions != [] && Last(r.transitions) == final then r.transitions else r.transitions + [final], r.evidence)
  }

  // ---- All the runs over one store ----

  // submits counts the calls of submit by message id; owner names the run that inserted the row.
  datatype World = World(store: map<string, Row>, runs: map<nat, Run>, submits: map<string, nat>, owner: map<string, nat>)

  datatype Event =
    | Begin(run: nat, envelope: Envelope, descriptor: Descriptor)
    | Look(run: nat)
    | Insert(run: nat)
    | Verify(run: nat, verified: bool)
    | Discover(run: nat, found: Option<seq<Snapshot>>)
    | Activate(run: nat, raises: bool)
    | TakeSnapshot(run: nat, snapshot: Option<Snapshot>)
    | Populate(run: nat, raises: bool)
    | Submit(run: nat, raises: bool)
    | ReadRendered(run: nat, text: Option<string>, expired: bool)
    | WaitForAck(run: nat, text: Option<string>)
    | Save(run: nat)
    | Finalize(run: nat)
    | Crash(run: nat)

  predicate Legal(w: World, e: Event) {
    if e.Begin? then e.run !in w.runs
    else
      && e.run in w.runs
      && var phase := w.runs[e.run].phase;
      match e
      case Look(_) => phase.AtLook?
      case Insert(_) => phase.AtInsert?
      case Verify(_, _) => phase.AtVerify?
      case Discover(_, _) => phase.AtDiscover?
      case Activate(_, _) => phase.AtActivate?
      case TakeSnapshot(_, _) => phase.AtSnapshot? || phase.AtResnapshot?
      case Populate(_, _) => phase.AtPopulate?
      case Submit(_, _) => phase.AtSubmit?
      case ReadRendered(_, _, _) => phase.AtRead?
      case WaitForAck(_, _) => phase.AtAck?
      case Save(_) => phase.Saving?
      case Finalize(_) => phase.Finishing?
      case _ => !phase.Ended?
  }

  // Only the exact recipient is served.
  function Started(e: Envelope, d: Descriptor): Run {
    Run(e, d, if d.recipient != e.recipient then Ended(Raised(TargetRecipientMismatch)) else AtLook, [], NO_EVIDENCE, false)
  }

  // The look-up half of claim.
  function AfterLook(r: Run, store: map<string, Row>): Run {
    var id := r.envelope.messageId;
    if id !in store then Go(r, AtInsert)
    else if !BoundTo(store[id], r.envelope) then Go(r, Ended(Raised(MessageIdConflict)))
    else if store[id].receipt.Some? then Go(r, Ended(Returned(store[id].receipt.value)))
    else Go(r, Ended(Raised(AlreadyInProgress(store[id].state))))
  }

  // The effect of a target call on its run.
  function AfterCall(r: Run, e: Event): Run {
    match e
    case Verify(_, verified) => AfterVerify(r, verified)
    case Discover(_, found) => AfterDiscover(r, found)
    case Activate(_, raises) => AfterActivate(r, raises)
    case TakeSnapshot(_, snapshot) => if r.phase.AtSnapshot? then AfterSnapshot(r, snapshot) else AfterResnapshot(r, snapshot)
    case Populate(_, raises) => AfterPopulate(r, raises)
    case Submit(_, raises) => AfterSubmit(r, raises)
    case ReadRendered(_, text, expired) => AfterRead(r, text, expired)
    case WaitForAck(_, text) => AfterAck(r, text)
    case _ => r
  }

  function CountOf(submits: map<string, nat>, id: string): nat {
    if id in submits then submits[id] else 0
  }

  function Next(w: World, e: Event): World
    requires Legal(w, e)
  {
    match e
    case Begin(a, envelope, descriptor) => w.(runs := w.runs[a := Started(envelope, descriptor)])
    case Look(a) => w.(runs := w.runs[a := AfterLook(w.runs[a], w.store)])
    case Insert(a) =>
      var r := w.runs[a];
      var id := r.envelope.messageId;
      if id in w.store then w.(runs := w.runs[a := Go(r, Ended(Raised(RowExists)))])
      else World(w.store[id := Row(r.envelope.nonce, r.envelope.sha, Created, None)],
                 w.runs[a := Go(r.(transitions := [Created]), AtVerify)], w.submits, w.owner[id := a])
    case Save(a) =>
      var r := w.runs[a];
      var id := r.envelope.messageId;
      if id in w.store && BoundTo(w.store[id], r.envelope) then
        w.(store := w.store[id := w.store[id].(state := r.phase.next)],
           runs := w.runs[a := Go(r.(transitions := r.transitions + [r.phase.next]), Resume(r.phase.next))])
      else w.(runs := w.runs[a := Go(r, Ended(Raised(StateBindingLost)))])
    case Finalize(a) =>
      var r := w.runs[a];
      var id, receipt := r.envelope.messageId, ReceiptOf(r, r.phase.final);
      if id in w.store && BoundTo(w.store[id], r.envelope) then
        w.(store := w.store[id := w.store[id].(state := receipt.finalState, receipt := Some(receipt))],
           runs := w.runs[a := Go(r, Ended(Returned(receipt)))])
      else w.(runs := w.runs[a := Go(r, Ended(Raised(ReceiptBindingLost)))])
    case Crash(a) => w.(runs := w.runs[a := Go(w.runs[a], Ended(Crashed))])
    case Submit(a, _) =>
      var id := w.runs[a].envelope.messageId;
      w.(runs := w.runs[a := AfterCall(w.runs[a], e)], submits := w.submits[id := CountOf(w.submits, id) + 1])
    case _ => w.(runs := w.runs[e.run := AfterCall(w.runs[e.run], e)])
  }

  predicate LegalRun(w: World, events: seq<Event>)
    decreases |events|
  {
    events == [] || (Legal(w, events[0]) && LegalRun(Next(w, events[0]), events[1..]))
  }

  function RunAll(w: World, events: seq<Event>): World
    requires LegalRun(w, events)
    decreases |events|
  {
    if events == [] then w else RunAll(Next(w, events[0]), events[1..])
  }

  // ---- What every run keeps ----

  // The state that the run saved last, and what it does next.
  predicate SavedFor(phase: Phase, state: State) {
    match phase
    case AtLook => false
    case AtInsert => false
    case AtVerify => state.Created?
    case AtSnapshot => state.TargetDiscovered?
    case Saving(next) => Edge(state, next) && !Terminal(next)
    case Finishing(final) => Edge(state, final) && Terminal(final)
    case Ended(_) => true
    case _ => Resume(state) == phase && !state.Created? && !Terminal(state)
  }

  predicate PastSubmit(state: State) {
    state.Submitted? || state.RenderedReadbackVerified? || state.AckPending?
  }

  // A live run has called submit exactly if it has saved SUBMITTED, or has just had the call's answer.
  predicate SentBy(phase: Phase, state: State) {
    PastSubmit(state) || (state.TargetReverifiedPresubmit? && (phase.Saving? || phase.Finishing?))
  }

  // How far a run has come with what it must see.
  predicate SawTarget(phase: Phase, state: State) {
    state.TargetDiscovered? || (phase.Saving? && phase.next.TargetDiscovered?)
  }

  predicate SawPrewrite(phase: Phase, state: State) {
    state.TargetVerifiedPrewrite? || state.ComposerPopulated? || (phase.Saving? && phase.next.TargetVerifiedPrewrite?)
  }

  predicate SawPresubmit(phase: Phase, state: State) {
    state.TargetReverifiedPresubmit? || PastSubmit(state) || (phase.Saving? && phase.next.TargetReverifiedPresubmit?)
  }

  predicate SawRendered(phase: Phase, state: State) {
    state.RenderedReadbackVerified? || state.AckPending? || (phase.Saving? && phase.next.RenderedReadbackVerified?)
  }

  predicate SawAck(phase: Phase) {
    phase.Finishing? && phase.final.AckVerified?
  }

  // What the run has seen by the time it is in this state.
  predicate EvidenceOk(r: Run, state: State) {
    && (SawTarget(r.phase, state) ==> Discovered(r))
    && (SawPrewrite(r.phase, state) ==> Prewritten(r))
    && (SawPresubmit(r.phase, state) ==> Reverified(r))
    && (SawRendered(r.phase, state) ==> r.evidence.renderedVerified && RenderedMatches(r.envelope, r.evidence.rendered))
    && (SawAck(r.phase) ==> r.evidence.ack == Some(RenderAck(r.envelope, "RECEIVED_VERIFIED")))
  }

  predicate Discovered(r: Run) {
    r.evidence.target.Some? && Matches(r.evidence.target.value, r.descriptor)
  }

  predicate Prewritten(r: Run) {
    && Discovered(r) && r.evidence.pre.Some? && Matches(r.evidence.pre.value, r.descriptor) && SameWindow(r, r.evidence.pre.value)
  }

  // The target was the described one in the same window, with the same digest, before the write and before the submit.
  predicate Reverified(r: Run) {
    && Prewritten(r) && r.evidence.presubmit.Some?
    && Matches(r.evidence.presubmit.value, r.descriptor) && SameWindow(r, r.evidence.presubmit.value)
    && DigestOf(r.evidence.pre.value) == DigestOf(r.evidence.presubmit.value)
  }

  // The receipt's transitions are a documented path to its final state, and what it claims was seen.
  predicate ReceiptOk(receipt: Receipt, d: Descriptor, sent: bool) {
    && IsPath(receipt.transitions) && Last(receipt.transitions) == receipt.finalState && Terminal(receipt.finalState)
    && (sent <==> Submitted in receipt.transitions || receipt.finalState == SubmitNotEstablished)
    && (receipt.finalState == AckVerified ==> Verified(receipt, d))
  }

  // The full path. The target that was discovered, the one before the write and the one before the submit are the one
  // described for the recipient, in the same window, the last two with equal digests.
  predicate Verified(receipt: Receipt, d: Descriptor) {
    var x := receipt.evidence;
    && receipt.transitions == HAPPY && d.recipient == receipt.envelope.recipient
    && x.target.Some? && x.pre.Some? && x.presubmit.Some?
    && Matches(x.target.value, d) && Matches(x.pre.value, d) && Matches(x.presubmit.value, d)
    && x.pre.value.window == x.target.value.window && x.presubmit.value.window == x.target.value.window
    && DigestOf(x.pre.value) == DigestOf(x.presubmit.value)
    && x.renderedVerified && RenderedMatches(receipt.envelope, x.rendered)
    && x.ack == Some(RenderAck(receipt.envelope, "RECEIVED_VERIFIED"))
  }

  // The row is that of the envelope, for which no receipt has been saved; it stands where the transitions lead.
  predicate Stands(e: Envelope, d: Descriptor, transitions: seq<State>, row: Row) {
    && BoundTo(row, e) && row.receipt.None? && d.recipient == e.recipient
    && IsPath(transitions) && Last(transitions) == row.state && !Terminal(row.state)
    && (Submitted in transitions <==> PastSubmit(row.state))
  }

  // A live run that owns its row.
  predicate OwnerOk(r: Run, row: Row) {
    && Stands(r.envelope, r.descriptor, r.transitions, row)
    && SavedFor(r.phase, row.state) && EvidenceOk(r, row.state)
    && (r.sent <==> SentBy(r.phase, row.state))
  }

  // A row whose run has ended: with its receipt, or stranded after a crash.
  predicate AbandonedOk(r: Run, row: Row) {
    match row.receipt
    case Some(receipt) => ReceiptOk(receipt, r.descriptor, r.sent) && row.state == receipt.finalState && receipt.envelope == r.envelope
    case None =>
      && !Terminal(row.state)
      && (PastSubmit(row.state) ==> r.sent)
      && (r.sent ==> PastSubmit(row.state) || row.state == TargetReverifiedPresubmit)
  }

  predicate RowOk(w: World, id: string)
    requires id in w.store
  {
    && id in w.owner && w.owner[id] in w.runs
    && var r := w.runs[w.owner[id]];
    && r.envelope.messageId == id && BoundTo(w.store[id], r.envelope)
    && CountOf(w.submits, id) == (if r.sent then 1 else 0)
    && if r.phase.Ended? then AbandonedOk(r, w.store[id]) else OwnerOk(r, w.store[id])
  }

  predicate RunOk(w: World, a: nat)
    requires a in w.runs
  {
    var r := w.runs[a];
    var id := r.envelope.messageId;
    || (r.phase.AtLook? || r.phase.AtInsert? || r.phase.Ended?)
    || (id in w.store && id in w.owner && w.owner[id] == a)
  }

  predicate NotBegun(r: Run) {
    !r.sent && r.descriptor.recipient == r.envelope.recipient
  }

  ghost predicate Inv(w: World) {
    && (forall id :: id in w.store ==> RowOk(w, id))
    && (forall a :: a in w.runs ==> RunOk(w, a))
    && (forall id :: id !in w.store ==> CountOf(w.submits, id) == 0)
    && (forall a :: a in w.runs && (w.runs[a].phase.AtLook? || w.runs[a].phase.AtInsert?) ==> NotBegun(w.runs[a]))
    && (forall id :: id in w.owner ==> id in w.store)
  }

  // ---- The steps of the owner ----

  // A target call of a live owner before the target is found.
  lemma FindCallKeepsOwner(r: Run, e: Event, row: Row)
    requires OwnerOk(r, row) && ((e.Verify? && r.phase.AtVerify?) || (e.Discover? && r.phase.AtDiscover?))
    ensures OwnerOk(AfterCall(r, e), row) && AfterCall(r, e).envelope == r.envelope && AfterCall(r, e).sent == r.sent && AfterCall(r, e).descriptor == r.descriptor
  {
    hide Prewritten;
    hide Reverified;
    hide RenderAck;
    hide RenderedMatches;
    hide Stands;
    hide Matching;
    hide Matches;
  }

  // A target call of a live owner that changes nothing but its phase.
  lemma PlainCallKeepsOwner(r: Run, e: Event, row: Row)
    requires OwnerOk(r, row) && ((e.Activate? && r.phase.AtActivate?) || (e.Populate? && r.phase.AtPopulate?))
    ensures OwnerOk(AfterCall(r, e), row) && AfterCall(r, e).envelope == r.envelope && AfterCall(r, e).sent == r.sent && AfterCall(r, e).descriptor == r.descriptor
  {
    hide RenderAck;
    hide RenderedMatches;
    hide Stands;
    hide Matches;
  }

  lemma SnapshotKeepsOwner(r: Run, e: Event, row: Row)
    requires OwnerOk(r, row) && e.TakeSnapshot? && (r.phase.AtSnapshot? || r.phase.AtResnapshot?)
    ensures OwnerOk(AfterCall(r, e), row) && AfterCall(r, e).envelope == r.envelope && AfterCall(r, e).sent == r.sent && AfterCall(r, e).descriptor == r.descriptor
  {
    hide RenderAck;
    hide RenderedMatches;
    hide Stands;
    hide Matches;
  }

  lemma ReadKeepsOwner(r: Run, text: Option<string>, expired: bool, row: Row)
    requires OwnerOk(r, row) && r.phase.AtRead?
    ensures OwnerOk(AfterRead(r, text, expired), row)
    ensures AfterRead(r, text, expired).envelope == r.envelope && AfterRead(r, text, expired).sent == r.sent
    ensures AfterRead(r, text, expired).descriptor == r.descriptor
  {
    hide RenderAck;
    hide Contains;
    hide Stands;
    hide Matches;
  }

  lemma AckKeepsOwner(r: Run, text: Option<string>, row: Row)
    requires OwnerOk(r, row) && r.phase.AtAck?
    ensures OwnerOk(AfterAck(r, text), row) && AfterAck(r, text).envelope == r.envelope && AfterAck(r, text).sent == r.sent
    ensures AfterAck(r, text).descriptor == r.descriptor
  {
    hide RenderAck;
    hide RenderedMatches;
    hide Stands;
    hide Matches;
  }

  lemma SubmitKeepsOwner(r: Run, raises: bool, row: Row)
    requires OwnerOk(r, row) && r.phase.AtSubmit?
    ensures OwnerOk(AfterSubmit(r, raises), row) && !r.sent && AfterSubmit(r, raises).sent
  {
    hide RenderAck;
    hide RenderedMatches;
    hide Stands;
  }

  lemma SaveKeepsOwner(r: Run, row: Row)
    requires OwnerOk(r, row) && r.phase.Saving?
    ensures OwnerOk(Go(r.(transitions := r.transitions + [r.phase.next]), Resume(r.phase.next)), row.(state := r.phase.next))
  {
    hide RenderAck;
    hide RenderedMatches;
    StandsNext(r.envelope, r.descriptor, r.transitions, row, r.phase.next);
    hide Stands;
  }

  lemma StandsNext(e: Envelope, d: Descriptor, transitions: seq<State>, row: Row, next: State)
    requires Stands(e, d, transitions, row) && Edge(row.state, next) && !Terminal(next)
    ensures Stands(e, d, transitions + [next], row.(state := next))
  {
    PathExtends(transitions, next);
    hide IsPath;
  }

  lemma PathExtends(transitions: seq<State>, next: State)
    requires IsPath(transitions) && Edge(Last(transitions), next)
    ensures IsPath(transitions + [next])
  {
  }

  // Only one path leads to ACK_PENDING, and it is the documented one.
  lemma {:induction false} PathToState(transitions: seq<State>)
    requires IsPath(transitions) && !Terminal(Last(transitions))
    ensures |transitions| <= 9 && transitions == HAPPY[..|transitions|]
    decreases |transitions|
  {
    if |transitions| > 1 {
      var n := |transitions| - 1;
      var init := transitions[..n];
      assert Edge(Last(init), Last(transitions));
      assert !Terminal(Last(init));
      assert IsPath(init);
      PathToState(init);
      HappyNext(n, Last(transitions));
      assert transitions == init + [Last(transitions)];
    }
  }

  // From each state of the documented path only the next one is not an end.
  lemma HappyNext(k: nat, next: State)
    requires 0 < k <= 9 && Edge(HAPPY[k - 1], next) && !Terminal(next)
    ensures k < 9 && next == HAPPY[k]
  {
  }

  lemma FinalizeGivesReceipt(r: Run, row: Row)
    requires OwnerOk(r, row) && r.phase.Finishing?
    ensures ReceiptOk(ReceiptOf(r, r.phase.final), r.descriptor, r.sent)
  {
    hide RenderAck;
    hide RenderedMatches;
    PathToState(r.transitions);
    PathExtends(r.transitions, r.phase.final);
  }

  // ---- Every event keeps the invariant ----

  // One run moves, and with it at most the row, the count and the owner of its own message.
  ghost predicate OnlyOwn(w: World, v: World, a: nat, id: string) {
    && a in v.runs && v.runs.Keys == w.runs.Keys + {a} && (forall b :: b in w.runs && b != a ==> v.runs[b] == w.runs[b])
    && v.store.Keys == w.store.Keys && v.owner == w.owner
    && (forall i :: i in w.store && i != id ==> v.store[i] == w.store[i])
    && (forall i :: i != id ==> CountOf(v.submits, i) == CountOf(w.submits, i))
  }

  lemma OtherRowKept(w: World, v: World, a: nat, id: string, i: string)
    requires OnlyOwn(w, v, a, id) && a in w.runs && w.runs[a].envelope.messageId == id && i in w.store && i != id && RowOk(w, i)
    ensures RowOk(v, i)
  {
    hide OwnerOk;
    hide AbandonedOk;
  }

  // The owner of a row moves.
  lemma OwnerStepKeepsInv(w: World, v: World, a: nat, id: string)
    requires Inv(w) && OnlyOwn(w, v, a, id) && a in w.runs && id in w.store && id in w.owner && w.owner[id] == a
    requires v.runs[a].envelope == w.runs[a].envelope && w.runs[a].envelope.messageId == id
    requires RowOk(v, id) && !v.runs[a].phase.AtLook? && !v.runs[a].phase.AtInsert?
    ensures Inv(v)
  {
    hide RowOk;
    forall i | i in v.store
      ensures RowOk(v, i)
    {
      if i != id { OtherRowKept(w, v, a, id, i); }
    }
    forall b | b in v.runs
      ensures RunOk(v, b)
    {
      assert RunOk(w, b) || b == a;
    }
  }

  // A run that owns nothing moves.
  lemma StrangerStepKeepsInv(w: World, v: World, a: nat)
    requires Inv(w) && (a in w.runs ==> Stranger(w.runs[a].phase)) && a in v.runs && Stranger(v.runs[a].phase)
    requires v == w.(runs := w.runs[a := v.runs[a]])
    requires (v.runs[a].phase.Ended? || NotBegun(v.runs[a])) && (a in w.runs ==> !w.runs[a].phase.Ended?)
    ensures Inv(v)
  {
    hide OwnerOk;
    hide AbandonedOk;
    forall i | i in v.store
      ensures RowOk(v, i)
    {
      assert RowOk(w, i);
      if w.owner[i] == a { assert !w.runs[a].phase.Ended?; OwnerIsNoStranger(w, i); }
    }
    forall b | b in v.runs
      ensures RunOk(v, b)
    {
      assert b == a || RunOk(w, b);
    }
  }

  predicate Stranger(phase: Phase) {
    phase.AtLook? || phase.AtInsert? || phase.Ended?
  }

  lemma OwnerIsNoStranger(w: World, id: string)
    requires id in w.store && RowOk(w, id) && !w.runs[w.owner[id]].phase.Ended?
    ensures !Stranger(w.runs[w.owner[id]].phase)
  {
    hide IsPath;
    hide EvidenceOk;
  }

  lemma LookKeepsInv(w: World, a: nat)
    requires Inv(w) && Legal(w, Look(a))
    ensures Inv(Next(w, Look(a)))
  {
    hide Inv;
    NotSentYet(w, a);
    StrangerStepKeepsInv(w, Next(w, Look(a)), a);
  }

  lemma NotSentYet(w: World, a: nat)
    requires Inv(w) && a in w.runs && (w.runs[a].phase.AtLook? || w.runs[a].phase.AtInsert?)
    ensures NotBegun(w.runs[a])
  {
  }

  lemma InsertKeepsInv(w: World, a: nat)
    requires Inv(w) && Legal(w, Insert(a))
    ensures Inv(Next(w, Insert(a)))
  {
    hide OwnerOk;
    hide AbandonedOk;
    NotSentYet(w, a);
    if w.runs[a].envelope.messageId in w.store {
      hide Inv;
      StrangerStepKeepsInv(w, Next(w, Insert(a)), a);
    } else {
      NewRowKeepsInv(w, a);
    }
  }

  lemma OtherRowAtInsert(w: World, a: nat, i: string)
    requires Legal(w, Insert(a)) && w.runs[a].envelope.messageId !in w.store && i in w.store && RowOk(w, i)
    ensures RowOk(Next(w, Insert(a)), i)
  {
    hide OwnerOk;
    hide AbandonedOk;
  }

  lemma NewRowOk(w: World, a: nat)
    requires Legal(w, Insert(a)) && NotBegun(w.runs[a])
    requires w.runs[a].envelope.messageId !in w.store && CountOf(w.submits, w.runs[a].envelope.messageId) == 0
    ensures var v := Next(w, Insert(a)); w.runs[a].envelope.messageId in v.store && RowOk(v, w.runs[a].envelope.messageId)
  {
    hide OwnerOk;
    hide AbandonedOk;
    NewOwnerOk(w.runs[a]);
  }

  lemma NewRowKeepsInv(w: World, a: nat)
    requires Inv(w) && Legal(w, Insert(a)) && w.runs[a].envelope.messageId !in w.store && NotBegun(w.runs[a])
    ensures Inv(Next(w, Insert(a)))
  {
    hide RowOk;
    var v, id := Next(w, Insert(a)), w.runs[a].envelope.messageId;
    NewRowOk(w, a);
    forall i | i in v.store
      ensures RowOk(v, i)
    {
      if i != id { OtherRowAtInsert(w, a, i); }
    }
    forall b | b in v.runs
      ensures RunOk(v, b)
    {
      assert RunOk(w, b);
    }
  }

  lemma NewOwnerOk(r: Run)
    requires NotBegun(r)
    ensures OwnerOk(Go(r.(transitions := [Created]), AtVerify), Row(r.envelope.nonce, r.envelope.sha, Created, None))
  {
    hide RenderAck;
    hide RenderedMatches;
  }

  // The row of a live run that is past the insertion.
  lemma OwnRow(w: World, a: nat)
    requires Inv(w) && a in w.runs && !Stranger(w.runs[a].phase)
    ensures var id := w.runs[a].envelope.messageId;
            && id in w.store && id in w.owner && w.owner[id] == a && OwnerOk(w.runs[a], w.store[id])
            && CountOf(w.submits, id) == (if w.runs[a].sent then 1 else 0)
  {
    hide OwnerOk;
    assert RunOk(w, a);
    assert RowOk(w, w.runs[a].envelope.messageId);
  }

  lemma LiveRow(v: World, a: nat, id: string)
    requires id in v.store && id in v.owner && v.owner[id] == a && a in v.runs
    requires v.runs[a].envelope.messageId == id && BoundTo(v.store[id], v.runs[a].envelope)
    requires CountOf(v.submits, id) == (if v.runs[a].sent then 1 else 0)
    requires !v.runs[a].phase.Ended? && OwnerOk(v.runs[a], v.store[id])
    ensures RowOk(v, id)
  {
    hide OwnerOk;
  }

  // A live owner with a new phase, and its row as before.
  lemma OwnerCallKeepsInv(w: World, v: World, a: nat, r: Run)
    requires Inv(w) && a in w.runs && !Stranger(w.runs[a].phase) && v == w.(runs := w.runs[a := r])
    requires w.runs[a].envelope.messageId in w.store && OwnerOk(r, w.store[w.runs[a].envelope.messageId])
    requires r.envelope == w.runs[a].envelope && r.sent == w.runs[a].sent && !r.phase.Ended?
    ensures Inv(v)
  {
    hide OwnerOk;
    hide Inv;
    OwnRow(w, a);
    var id := r.envelope.messageId;
    OwnerBound(r, w.store[id]);
    LiveRow(v, a, id);
    OwnerIsNoStranger(v, id);
    OwnerStepKeepsInv(w, v, a, id);
  }

  lemma CallDoesNotEnd(r: Run, e: Event)
    requires !r.phase.Ended?
    ensures !AfterCall(r, e).phase.Ended?
  {
    hide RenderedMatches;
    hide RenderAck;
    hide Matching;
    hide Matches;
  }

  lemma CallKeepsInv(w: World, e: Event)
    requires Inv(w) && Legal(w, e)
    requires e.Verify? || e.Discover? || e.Activate? || e.TakeSnapshot? || e.Populate? || e.ReadRendered? || e.WaitForAck?
    ensures Inv(Next(w, e))
  {
    hide Inv;
    hide OwnerOk;
    var r := w.runs[e.run];
    OwnRow(w, e.run);
    var row := w.store[r.envelope.messageId];
    match e {
      case TakeSnapshot(_, _) => SnapshotKeepsOwner(r, e, row);
      case ReadRendered(_, text, expired) => ReadKeepsOwner(r, text, expired, row);
      case WaitForAck(_, text) => AckKeepsOwner(r, text, row);
      case Activate(_, _) => PlainCallKeepsOwner(r, e, row);
      case Populate(_, _) => PlainCallKeepsOwner(r, e, row);
      case _ => FindCallKeepsOwner(r, e, row);
    }
    CallDoesNotEnd(r, e);
    OwnerCallKeepsInv(w, Next(w, e), e.run, AfterCall(r, e));
  }

  lemma SubmitKeepsInv(w: World, a: nat, raises: bool)
    requires Inv(w) && Legal(w, Submit(a, raises))
    ensures Inv(Next(w, Submit(a, raises)))
  {
    hide OwnerOk;
    hide Inv;
    var r, v := w.runs[a], Next(w, Submit(a, raises));
    var id := r.envelope.messageId;
    OwnRow(w, a);
    SubmitKeepsOwner(r, raises, w.store[id]);
    OwnerBound(r, w.store[id]);
    LiveRow(v, a, id);
    OwnerStepKeepsInv(w, v, a, id);
  }

  lemma SaveKeepsInv(w: World, a: nat)
    requires Inv(w) && Legal(w, Save(a))
    ensures Inv(Next(w, Save(a)))
  {
    hide OwnerOk;
    hide Inv;
    var r, v := w.runs[a], Next(w, Save(a));
    var id := r.envelope.messageId;
    OwnRow(w, a);
    OwnerBound(r, w.store[id]);
    SaveKeepsOwner(r, w.store[id]);
    OwnerBound(r, w.store[id]);
    LiveRow(v, a, id);
    OwnerStepKeepsInv(w, v, a, id);
  }

  lemma OwnerBound(r: Run, row: Row)
    requires OwnerOk(r, row)
    ensures BoundTo(row, r.envelope)
  {
  }

  lemma FinalizeKeepsInv(w: World, a: nat)
    requires Inv(w) && Legal(w, Finalize(a))
    ensures Inv(Next(w, Finalize(a)))
  {
    hide OwnerOk;
    hide ReceiptOk;
    hide Inv;
    var r, v := w.runs[a], Next(w, Finalize(a));
    var id := r.envelope.messageId;
    OwnRow(w, a);
    OwnerBound(r, w.store[id]);
    FinalizeGivesReceipt(r, w.store[id]);
    assert RowOk(v, id);
    OwnerStepKeepsInv(w, v, a, id);
  }

  lemma CrashLeavesRow(r: Run, row: Row)
    requires OwnerOk(r, row)
    ensures AbandonedOk(Go(r, Ended(Crashed)), row)
  {
    hide IsPath;
    hide EvidenceOk;
  }

  lemma CrashKeepsInv(w: World, a: nat)
    requires Inv(w) && Legal(w, Crash(a))
    ensures Inv(Next(w, Crash(a)))
  {
    hide OwnerOk;
    hide AbandonedOk;
    hide Inv;
    var r, v := w.runs[a], Next(w, Crash(a));
    if Stranger(r.phase) {
      NotSentYet(w, a);
      StrangerStepKeepsInv(w, v, a);
    } else {
      var id := r.envelope.messageId;
      OwnRow(w, a);
      OwnerBound(r, w.store[id]);
      CrashLeavesRow(r, w.store[id]);
      assert RowOk(v, id);
      OwnerStepKeepsInv(w, v, a, id);
    }
  }

  lemma BeginKeepsInv(w: World, a: nat, e: Envelope, d: Descriptor)
    requires Inv(w) && Legal(w, Begin(a, e, d))
    ensures Inv(Next(w, Begin(a, e, d)))
  {
    hide Inv;
    StrangerStepKeepsInv(w, Next(w, Begin(a, e, d)), a);
  }

  lemma NextKeepsInv(w: World, e: Event)
    requires Inv(w) && Legal(w, e)
    ensures Inv(Next(w, e))
  {
    hide Inv;
    hide Next;
    hide Legal;
    match e {
      case Begin(a, envelope, d) => BeginKeepsInv(w, a, envelope, d);
      case Look(a) => LookKeepsInv(w, a);
      case Insert(a) => InsertKeepsInv(w, a);
      case Submit(a, raises) => SubmitKeepsInv(w, a, raises);
      case Save(a) => SaveKeepsInv(w, a);
      case Finalize(a) => FinalizeKeepsInv(w, a);
      case Crash(a) => CrashKeepsInv(w, a);
      case _ => CallKeepsInv(w, e);
    }
  }

  lemma {:induction false} RunsKeepInv(w: World, events: seq<Event>)
    requires Inv(w) && LegalRun(w, events)
    ensures Inv(RunAll(w, events))
    decreases |events|
  {
    hide Inv;
    hide Next;
    hide Legal;
    if events != [] {
      NextKeepsInv(w, events[0]);
      RunsKeepInv(Next(w, events[0]), events[1..]);
    }
  }

  const START := World(map[], map[], map[], map[])

  lemma StartInv()
    ensures Inv(START)
  {
  }

  // ---- Main results ----

  /** Over any runs and crashes submit is called at most once for a message id. */
  lemma SubmitAtMostOnce(events: seq<Event>, id: string)
    requires LegalRun(START, events)
    ensures CountOf(RunAll(START, events).submits, id) <= 1
  {
    hide OwnerOk;
    hide AbandonedOk;
    StartInv();
    RunsKeepInv(START, events);
    var w := RunAll(START, events);
    if id in w.store { assert RowOk(w, id); }
  }

  /** What the durable row tells about the submission. Before TARGET_REVERIFIED_PRESUBMIT nothing was sent; from
      SUBMITTED on it was; a receipt says so by its transitions, which are a documented path, and is true of the target
      that the run that owns the row was given. */
  lemma RowTellsSubmission(events: seq<Event>, id: string)
    requires LegalRun(START, events) && id in RunAll(START, events).store
    ensures var w := RunAll(START, events);
            var row, sent := w.store[id], CountOf(w.submits, id) == 1;
            && id in w.owner && w.owner[id] in w.runs
            && match row.receipt
            case Some(receipt) => ReceiptOk(receipt, w.runs[w.owner[id]].descriptor, sent) && row.state == receipt.finalState && receipt.envelope.messageId == id
            case None => !Terminal(row.state) && (PastSubmit(row.state) ==> sent) && (sent ==> PastSubmit(row.state) || row.state == TargetReverifiedPresubmit)
  {
    StartInv();
    RunsKeepInv(START, events);
    var w := RunAll(START, events);
    hide LegalRun;
    hide RunAll;
    assert RowOk(w, id);
    hide Inv;
    hide IsPath;
    hide EvidenceOk;
    hide ReceiptOk;
  }

  // A finalized row stays as it is.
  lemma ReceiptStays(w: World, e: Event, id: string)
    requires Inv(w) && Legal(w, e) && id in w.store && w.store[id].receipt.Some?
    ensures id in Next(w, e).store && Next(w, e).store[id] == w.store[id]
  {
    hide OwnerOk;
    hide Inv;
    hide Next;
    hide Legal;
    if !e.Begin? {
      LegalRuns(w, e);
      if !Stranger(w.runs[e.run].phase) {
        OwnRow(w, e.run);
        OwnerHasNoReceipt(w.runs[e.run], w.store[w.runs[e.run].envelope.messageId]);
      }
    }
    OnlyOwnRowMoves(w, e, id);
  }

  lemma LegalRuns(w: World, e: Event)
    requires Legal(w, e) && !e.Begin?
    ensures e.run in w.runs
  {
  }

  // An event leaves alone every row but that of a run past its insertion.
  lemma OnlyOwnRowMoves(w: World, e: Event, id: string)
    requires Legal(w, e) && id in w.store
    requires e.Begin? || Stranger(w.runs[e.run].phase) || w.runs[e.run].envelope.messageId != id
    ensures id in Next(w, e).store && Next(w, e).store[id] == w.store[id]
  {
    hide AfterCall;
    hide AfterLook;
    hide Started;
    hide ReceiptOf;
    hide Resume;
  }

  lemma OwnerHasNoReceipt(r: Run, row: Row)
    requires OwnerOk(r, row)
    ensures row.receipt.None?
  {
  }

  /** A finalized receipt is never replaced. */
  lemma {:induction false} ReceiptForGood(w: World, events: seq<Event>, id: string)
    requires Inv(w) && LegalRun(w, events) && id in w.store && w.store[id].receipt.Some?
    ensures id in RunAll(w, events).store && RunAll(w, events).store[id] == w.store[id]
    decreases |events|
  {
    hide Inv;
    hide Next;
    hide Legal;
    if events != [] {
      NextKeepsInv(w, events[0]);
      ReceiptStays(w, events[0], id);
      ReceiptForGood(Next(w, events[0]), events[1..], id);
    }
  }

  /** It is what every later run of the same envelope returns. */
  lemma LaterRunReturnsReceipt(w: World, events: seq<Event>, a: nat)
    requires Inv(w) && LegalRun(w, events) && Legal(RunAll(w, events), Look(a))
    requires var e := RunAll(w, events).runs[a].envelope;
             e.messageId in w.store && w.store[e.messageId].receipt.Some? && BoundTo(w.store[e.messageId], e)
    ensures var v := RunAll(w, events);
            Next(v, Look(a)).runs[a].phase == Ended(Returned(w.store[v.runs[a].envelope.messageId].receipt.value))
  {
    ReceiptForGood(w, events, RunAll(w, events).runs[a].envelope.messageId);
    hide Inv;
    hide RunAll;
    hide LegalRun;
  }

  // ---- The store and the run as the program has them ----

  datatype Claim = NewRow | OldRow(state: State, receipt: Option<Receipt>) | ClaimedByOther

  class RelayStore {
    var rows: map<string, Row>

    constructor ()
      ensures rows == map[]
    {
      rows := map[];
    }

    method ClaimRow(e: Envelope) returns (c: Claim)
      modifies this
      ensures c.NewRow? <==> e.messageId !in old(rows)
      ensures c.NewRow? ==> rows == old(rows)[e.messageId := Row(e.nonce, e.sha, Created, None)]
      ensures !c.NewRow? ==> rows == old(rows) && (c.ClaimedByOther? <==> !BoundTo(rows[e.messageId], e))
      ensures c.OldRow? ==> c.state == rows[e.messageId].state && c.receipt == rows[e.messageId].receipt
    {
      if e.messageId in rows {
        var row := rows[e.messageId];
        if !BoundTo(row, e) { return ClaimedByOther; }
        return OldRow(row.state, row.receipt);
      }
      rows := rows[e.messageId := Row(e.nonce, e.sha, Created, None)];
      c := NewRow;
    }

    method SetState(e: Envelope, state: State) returns (ok: bool)
      modifies this
      ensures ok <==> e.messageId in old(rows) && BoundTo(old(rows)[e.messageId], e)
      ensures rows == if ok then old(rows)[e.messageId := old(rows)[e.messageId].(state := state)] else old(rows)
    {
      ok := e.messageId in rows && BoundTo(rows[e.messageId], e);
      if ok { rows := rows[e.messageId := rows[e.messageId].(state := state)]; }
    }

    method Finalize(e: Envelope, receipt: Receipt) returns (ok: bool)
      modifies this
      ensures ok <==> e.messageId in old(rows) && BoundTo(old(rows)[e.messageId], e)
      ensures rows == if ok then old(rows)[e.messageId := old(rows)[e.messageId].(state := receipt.finalState, receipt := Some(receipt))] else old(rows)
    {
      ok := e.messageId in rows && BoundTo(rows[e.messageId], e);
      if ok { rows := rows[e.messageId := rows[e.messageId].(state := receipt.finalState, receipt := Some(receipt))]; }
    }
  }

  // What a call of the target gives back.
  datatype Reply = Raises | Found(targets: seq<Snapshot>) | Seen(snapshot: Snapshot) | Done | Text(text: Option<string>, late: bool)

  // The target answers by a script that may hold anything; a call past its end raises.
  class WorkstationTarget {
    var script: seq<Reply>
    var submits: nat

    constructor (script: seq<Reply>)
      ensures this.script == script && submits == 0
    {
      this.script, submits := script, 0;
    }

    method Call() returns (reply: Reply)
      modifies this`script
      ensures |script| < |old(script)| || (script == old(script) == [] && reply == Raises)
    {
      if script == [] { return Raises; }
      reply := script[0];
      script := script[1..];
    }

    method SubmitComposer() returns (raises: bool)
      modifies this
      ensures submits == old(submits) + 1
    {
      submits := submits + 1;
      var reply := Call();
      raises := reply == Raises;
    }
  }

  // The run owns its row; the other rows are those that were there before.
  predicate Owns(r: Run, rows: map<string, Row>, before: map<string, Row>) {
    var id := r.envelope.messageId;
    id in rows && OwnerOk(r, rows[id]) && rows == before[id := rows[id]]
  }

  class WorkstationRelay {
    const store: RelayStore

    constructor (store: RelayStore)
      ensures this.store == store
    {
      this.store := store;
    }

    // advance: the state is saved before the run goes on.
    method Advance(r: Run, ghost before: map<string, Row>) returns (s: Run)
      requires r.phase.Saving? && Owns(r, store.rows, before)
      modifies store
      ensures s == Go(r.(transitions := r.transitions + [r.phase.next]), Resume(r.phase.next)) && Owns(s, store.rows, before)
    {
      ghost var row := store.rows[r.envelope.messageId];
      OwnerBound(r, row);
      SaveKeepsOwner(r, row);
      hide OwnerOk;
      var ok := store.SetState(r.envelope, r.phase.next);
      s := Go(r.(transitions := r.transitions + [r.phase.next]), Resume(r.phase.next));
    }

    // finish: the final state and its receipt are one write.
    method Finish(r: Run, ghost before: map<string, Row>) returns (result: Result)
      requires r.phase.Finishing? && Owns(r, store.rows, before)
      modifies store
      ensures result == Returned(ReceiptOf(r, r.phase.final)) && ReceiptOk(result.receipt, r.descriptor, r.sent)
      ensures store.rows == before[r.envelope.messageId := Row(r.envelope.nonce, r.envelope.sha, r.phase.final, Some(result.receipt))]
    {
      OwnerBound(r, store.rows[r.envelope.messageId]);
      FinalizeGivesReceipt(r, store.rows[r.envelope.messageId]);
      hide OwnerOk;
      hide ReceiptOk;
      var receipt := ReceiptOf(r, r.phase.final);
      var ok := store.Finalize(r.envelope, receipt);
      result := Returned(receipt);
    }

    /** run, without a crash: an old row decides alone; otherwise the target is asked, submit is called at most once,
        and the row ends with a receipt that tells what happened. */
    method RunOnce(e: Envelope, d: Descriptor, target: WorkstationTarget, verified: bool) returns (result: Result)
      modifies store, target
      ensures target.submits <= old(target.submits) + 1
      ensures d.recipient != e.recipient ==> result == Raised(TargetRecipientMismatch)
      ensures d.recipient == e.recipient && e.messageId in old(store.rows) ==>
                var row := old(store.rows)[e.messageId];
                result == (if !BoundTo(row, e) then Raised(MessageIdConflict)
                           else if row.receipt.Some? then Returned(row.receipt.value)
                           else Raised(AlreadyInProgress(row.state)))
      ensures d.recipient != e.recipient || e.messageId in old(store.rows) ==>
                store.rows == old(store.rows) && target.submits == old(target.submits)
      ensures d.recipient == e.recipient && e.messageId !in old(store.rows) ==>
                && result.Returned? && result.receipt.envelope == e
                && ReceiptOk(result.receipt, d, target.submits == old(target.submits) + 1)
                && store.rows == old(store.rows)[e.messageId := Row(e.nonce, e.sha, result.receipt.finalState, Some(result.receipt))]
    {
      if d.recipient != e.recipient { return Raised(TargetRecipientMismatch); }
      ghost var before := store.rows;
      var claim := store.ClaimRow(e);
      match claim {
        case ClaimedByOther => return Raised(MessageIdConflict);
        case OldRow(state, receipt) => return if receipt.Some? then Returned(receipt.value) else Raised(AlreadyInProgress(state));
        case NewRow =>
      }
      var r := Run(e, d, AtVerify, [Created], NO_EVIDENCE, false);
      NewOwnerOk(r.(transitions := [], phase := AtInsert));
      hide OwnerOk;
      hide ReceiptOk;
      r := Prepare(r, before, target, verified);
      if r.phase.AtSubmit? {
        SubmitKeepsOwnerEither(r, store.rows[e.messageId]);
        var raises := target.SubmitComposer();
        r := AfterSubmit(r, raises);
        if r.phase.Saving? { r := Confirm(r, before, target); }
      }
      result := Finish(r, before);
    }

    // Up to the submission: the run is at the submit, or about to finish without it.
    method Prepare(start: Run, ghost before: map<string, Row>, target: WorkstationTarget, verified: bool) returns (r: Run)
      requires start.phase.AtVerify? && Owns(start, store.rows, before) && !start.sent
      modifies store, target`script
      ensures Owns(r, store.rows, before) && (r.phase.AtSubmit? || r.phase.Finishing?)
      ensures r.envelope == start.envelope && r.descriptor == start.descriptor && !r.sent
    {
      hide OwnerOk;
      r := FindTarget(start, before, target, verified);
      if r.phase.AtActivate? { r := CheckTarget(r, before, target); }
      if r.phase.AtPopulate? { r := WriteComposer(r, before, target); }
    }

    method FindTarget(start: Run, ghost before: map<string, Row>, target: WorkstationTarget, verified: bool) returns (r: Run)
      requires start.phase.AtVerify? && Owns(start, store.rows, before) && !start.sent
      modifies store, target`script
      ensures Owns(r, store.rows, before) && (r.phase.AtActivate? || r.phase.Finishing?)
      ensures r.envelope == start.envelope && r.descriptor == start.descriptor && !r.sent
    {
      hide OwnerOk;
      var id := start.envelope.messageId;
      FindCallKeepsOwner(start, Verify(0, verified), store.rows[id]);
      r := AfterVerify(start, verified);
      if r.phase.Finishing? { return; }
      r := Advance(r, before);

      var reply := target.Call();
      var found := if reply.Found? then Some(reply.targets) else None;
      FindCallKeepsOwner(r, Discover(0, found), store.rows[id]);
      r := AfterDiscover(r, found);
      if r.phase.Finishing? { return; }
      r := Advance(r, before);
    }

    method CheckTarget(start: Run, ghost before: map<string, Row>, target: WorkstationTarget) returns (r: Run)
      requires start.phase.AtActivate? && Owns(start, store.rows, before) && !start.sent
      modifies store, target`script
      ensures Owns(r, store.rows, before) && (r.phase.AtPopulate? || r.phase.Finishing?)
      ensures r.envelope == start.envelope && r.descriptor == start.descriptor && !r.sent
    {
      hide OwnerOk;
      var id := start.envelope.messageId;
      var reply := target.Call();
      PlainCallKeepsOwner(start, Activate(0, reply == Raises), store.rows[id]);
      r := AfterActivate(start, reply == Raises);
      if r.phase.Finishing? { return; }

      reply := target.Call();
      var snapshot := if reply.Seen? then Some(reply.snapshot) else None;
      SnapshotKeepsOwner(r, TakeSnapshot(0, snapshot), store.rows[id]);
      r := AfterSnapshot(r, snapshot);
      if r.phase.Finishing? { return; }
      r := Advance(r, before);
    }

    method WriteComposer(start: Run, ghost before: map<string, Row>, target: WorkstationTarget) returns (r: Run)
      requires start.phase.AtPopulate? && Owns(start, store.rows, before) && !start.sent
      modifies store, target`script
      ensures Owns(r, store.rows, before) && (r.phase.AtSubmit? || r.phase.Finishing?)
      ensures r.envelope == start.envelope && r.descriptor == start.descriptor && !r.sent
    {
      hide OwnerOk;
      var id := start.envelope.messageId;
      var reply := target.Call();
      PlainCallKeepsOwner(start, Populate(0, reply == Raises), store.rows[id]);
      r := AfterPopulate(start, reply == Raises);
      if r.phase.Finishing? { return; }
      r := Advance(r, before);

      reply := target.Call();
      var snapshot := if reply.Seen? then Some(reply.snapshot) else None;
      SnapshotKeepsOwner(r, TakeSnapshot(0, snapshot), store.rows[id]);
      r := AfterResnapshot(r, snapshot);
      if r.phase.Finishing? { return; }
      r := Advance(r, before);
    }

    // Everything after an answered submission.
    method Confirm(start: Run, ghost before: map<string, Row>, target: WorkstationTarget) returns (r: Run)
      requires start.phase == Saving(Submitted) && Owns(start, store.rows, before)
      modifies store, target`script
      ensures Owns(r, store.rows, before) && r.phase.Finishing? && SameRun(start, r)
    {
      hide OwnerOk;
      var id := start.envelope.messageId;
      r := Advance(start, before);
      r := ReadBack(r, before, target);
      if r.phase.Finishing? { return; }
      r := Advance(r, before);
      r := Advance(r, before);
      var reply := target.Call();
      var text := if reply.Text? then reply.text else None;
      AckKeepsOwner(r, text, store.rows[id]);
      r := AfterAck(r, text);
    }

    // The readback loop; the deadline is past when a reply is late, and at the latest when the script has ended.
    method ReadBack(start: Run, ghost before: map<string, Row>, target: WorkstationTarget) returns (r: Run)
      requires start.phase.AtRead? && Owns(start, store.rows, before)
      modifies target`script
      ensures Owns(r, store.rows, before) && SameRun(start, r)
      ensures r.phase.Finishing? || r.phase == Saving(RenderedReadbackVerified)
    {
      hide OwnerOk;
      r := start;
      while r.phase.AtRead?
        invariant Owns(r, store.rows, before) && SameRun(start, r)
        invariant r.phase.AtRead? || r.phase.Finishing? || r.phase == Saving(RenderedReadbackVerified)
        decreases r.phase.AtRead?, |target.script|
      {
        var reply := target.Call();
        var text := if reply.Text? then reply.text else None;
        var expired := target.script == [] || (reply.Text? && reply.late);
        ReadKeepsOwner(r, text, expired, store.rows[r.envelope.messageId]);
        r := AfterRead(r, text, expired);
      }
    }
  }

  predicate SameRun(r: Run, s: Run) {
    s.envelope == r.envelope && s.descriptor == r.descriptor && s.sent == r.sent
  }

  lemma SubmitKeepsOwnerEither(r: Run, row: Row)
    requires OwnerOk(r, row) && r.phase.AtSubmit?
    ensures !r.sent && forall raises :: OwnerOk(AfterSubmit(r, raises), row)
  {
    hide OwnerOk;
    forall raises
      ensures OwnerOk(AfterSubmit(r, raises), row)
    {
      SubmitKeepsOwner(r, raises, row);
    }
    SubmitKeepsOwner(r, true, row);
  }
}
