/** Exact-head append to one writer lane (safe_lane_append.py) as steps on a shared branch. Any number
    of appenders run at once; between any two of their backend calls the branch may be fast-forwarded
    by somebody else, and a ref update that raised may have landed, be lost, or land later. */
module SafeLaneAppend {
  import opened Wrappers
  import opened Text
  import opened CommitObjects
  import MG = MessageGrammar

  // ---- The message and its local checks ----

  datatype Parsed = Parsed(messageId: string, writer: string, prev: Option<string>)

  function Header(headers: MG.Headers, key: string): string {
    if key in headers then headers[key] else ""
  }

  function ParseMessage(text: string): Result<Parsed, string> {
    var headers := MG.MetadataHeaders(text);
    if headers.Err? then Err("MESSAGE_ENVELOPE_INVALID")
    else if Header(headers.value, "message_id") == "" then Err("MESSAGE_ENVELOPE_INVALID")
    else if Header(headers.value, "writer") == "" then Err("WRITER_MISSING")
    else
      var prev := Header(headers.value, "prev_message_id");
      Ok(Parsed(Header(headers.value, "message_id"), Header(headers.value, "writer"),
                if prev == "" then None else Some(prev)))
  }

  predicate IdStart(c: char, upper: bool) {
    'a' <= c <= 'z' || '0' <= c <= '9' || (upper && 'A' <= c <= 'Z')
  }

  // A lower-case writer part, a hyphen, and a suffix; the id belongs to the identity.
  predicate ValidMessageId(identity: string, id: string) {
    && (exists k :: 0 < k < |id| - 1 && id[k] == '-' && IdParts(id[..k], id[k + 1..]))
    && StartsWith(id, identity + "-")
  }

  predicate IdParts(writer: string, suffix: string)
    requires writer != [] && suffix != []
  {
    && IdStart(writer[0], false) && (forall i :: 0 <= i < |writer| ==> IdStart(writer[i], false) || writer[i] in "_-")
    && IdStart(suffix[0], true) && (forall i :: 0 <= i < |suffix| ==> IdStart(suffix[i], true) || suffix[i] in "._-")
  }

  function PathOf(id: string): Path {
    "messages/" + id + ".md"
  }

  // ---- What the collaborators report ----

  // A lane's entry in the topology, with the digest of the topology it was read from.
  datatype LaneBinding = LaneBinding(identity: string, writer: string, digest: string)

  datatype CommittedMessage = CommittedMessage(messageId: string, content: string, commit: Commit, path: Path, prev: Option<string>)

  datatype History = History(complete: bool, tips: seq<string>, messages: seq<CommittedMessage>)

  datatype Reply<T> = Raises | Returns(value: T)

  // The five ways a non-force ref update can turn out.
  datatype UpdateReply = Accepted | Rejected | RaisedLanded | RaisedLost | RaisedPending

  datatype Effect = NoneEstablished | PresentUnverified | PresentVerified | Unknown

  datatype Receipt = Receipt(result: string, expectedHead: Commit, commit: Commit, parent: Commit, path: Path,
                             messageId: string, prev: Option<string>, content: string)

  // Escaped: a backend exception that the operation does not classify.
  datatype Outcome = Done(receipt: Receipt) | Failed(code: string, effect: Effect) | Escaped

  // Where an append stands: which backend call comes next, and what it has seen or built.
  datatype Phase =
    | AtControl
    | AtHead(binding: LaneBinding)
    | AtHistory(binding: LaneBinding, observed: Commit)
    | AtPath(binding: LaneBinding, seen: Commit)
    | AtBuild(binding: LaneBinding, seen: Commit)
    | AtRecheck(binding: LaneBinding, seen: Commit, candidate: Commit)
    | AtUpdate(seen: Commit, candidate: Commit)
    | AtObserve(seen: Commit, candidate: Commit, raised: bool, moved: bool)
    | AtVerifyHead(candidate: Commit)
    | AtVerifyObjects(candidate: Commit)
    | AtFinalControl(candidate: Commit)
    | AtExisting(existing: CommittedMessage)
    | AtExistingControl(existing: CommittedMessage, parent: Commit)
    | Finished(outcome: Outcome, made: Option<Commit>)

  datatype Session = Session(identity: string, expected: Commit, text: string, msg: Parsed, phase: Phase)

  // pending holds the candidates whose update raised and may still land, with the append that made them.
  datatype Lane = Lane(head: Commit, pending: map<Commit, nat>, sessions: map<nat, Session>)

  function CandidateOf(phase: Phase): Option<Commit> {
    match phase
    case AtRecheck(_, _, c) => Some(c)
    case AtUpdate(_, c) => Some(c)
    case AtObserve(_, c, _, _) => Some(c)
    case AtVerifyHead(c) => Some(c)
    case AtVerifyObjects(c) => Some(c)
    case AtFinalControl(c) => Some(c)
    case Finished(_, made) => made
    case _ => None
  }

  ghost predicate IsCandidate(s: Lane, c: Commit) {
    exists a :: a in s.sessions && CandidateOf(s.sessions[a].phase) == Some(c)
  }

  function Refuse(code: string): Phase {
    Finished(Failed(code, NoneEstablished), None)
  }

  // ---- One append, call by call ----

  function Begin(identity: string, expected: Commit, text: string): Session {
    var parsed := ParseMessage(text);
    if parsed.Err? then Session(identity, expected, text, Parsed("", "", None), Refuse(parsed.error))
    else if !ValidMessageId(identity, parsed.value.messageId) then Session(identity, expected, text, parsed.value, Refuse("MESSAGE_ID_INVALID"))
    else Session(identity, expected, text, parsed.value, AtControl)
  }

  function AfterControl(x: Session, reply: Reply<Option<LaneBinding>>): (next: Phase)
    ensures CandidateOf(next).None?
  {
    match reply
    case Raises => Refuse("TOPOLOGY_UNAVAILABLE")
    case Returns(None) => Refuse("IDENTITY_UNKNOWN")
    case Returns(Some(binding)) =>
      if binding.identity != x.identity then Refuse("TOPOLOGY_IDENTITY_AMBIGUOUS")
      else if Fold(x.msg.writer) != Fold(binding.writer) then Refuse("WRITER_MISMATCH")
      else AtHead(binding)
  }

  function AfterHead(binding: LaneBinding, reply: Reply<Option<Commit>>): (next: Phase)
    ensures CandidateOf(next).None?
  {
    match reply
    case Raises => Refuse("LANE_UNREGISTERED")
    case Returns(None) => Refuse("LANE_MISSING_BOOTSTRAP_REQUIRED")
    case Returns(Some(head)) => AtHistory(binding, head)
  }

  function WithId(messages: seq<CommittedMessage>, id: string): seq<CommittedMessage> {
    if messages == [] then []
    else (if messages[0].messageId == id then [messages[0]] else []) + WithId(messages[1..], id)
  }

  // _validate_predecessor: the code it raises, if any.
  function PredecessorError(history: History, msg: Parsed): Option<string> {
    if |history.tips| > 1 then Some("PREDECESSOR_UNRESOLVED")
    else if history.messages != [] && |history.tips| != 1 then Some("PREDECESSOR_UNRESOLVED")
    else if |history.tips| == 1 then
      if msg.prev.None? then Some("PREDECESSOR_MISSING")
      else if msg.prev.value != history.tips[0] then Some("PREDECESSOR_MISMATCH")
      else None
    else if msg.prev.Some? then Some("PREDECESSOR_MISMATCH")
    else None
  }

  // seen is the branch head at the moment the history was read.
  function AfterHistory(x: Session, binding: LaneBinding, observed: Commit, seen: Commit, reply: Reply<History>): (next: Phase)
    ensures CandidateOf(next).None?
  {
    match reply
    case Raises => Refuse("MESSAGE_ID_HISTORY_UNRESOLVED")
    case Returns(history) =>
      if !history.complete then Refuse("MESSAGE_ID_HISTORY_UNRESOLVED")
      else
        var duplicates := WithId(history.messages, x.msg.messageId);
        if duplicates != [] then
          if |duplicates| != 1 || duplicates[0].content != x.text then Refuse("MESSAGE_ID_COLLISION")
          else AtExisting(duplicates[0])
        else if observed != x.expected then Refuse("STALE_LANE_HEAD")
        else if PredecessorError(history, x.msg).Some? then Refuse(PredecessorError(history, x.msg).value)
        else AtPath(binding, seen)
  }

  function AfterPath(x: Session, binding: LaneBinding, seen: Commit, raises: bool): (next: Phase)
    ensures CandidateOf(next).None?
  {
    if raises || PathOf(x.msg.messageId) in x.expected.tree then Refuse("MESSAGE_PATH_COLLISION")
    else AtBuild(binding, seen)
  }

  function Candidate(x: Session, note: nat): Commit {
    Commit([x.expected], x.expected.tree[PathOf(x.msg.messageId) := x.text], note)
  }

  // Blob, tree and commit are created one after the other; failed names the call that raised.
  function AfterBuild(x: Session, binding: LaneBinding, seen: Commit, note: nat, failed: Option<string>): Phase {
    if failed.Some? then Refuse(failed.value) else AtRecheck(binding, seen, Candidate(x, note))
  }

  function AfterRecheck(binding: LaneBinding, seen: Commit, candidate: Commit, reply: Reply<Option<LaneBinding>>): (next: Phase)
    ensures CandidateOf(next) == Some(candidate)
  {
    if reply == Returns(Some(binding)) then AtUpdate(seen, candidate)
    else Finished(Failed("TOPOLOGY_CHANGED_DURING_APPEND", NoneEstablished), Some(candidate))
  }

  function AfterUpdate(seen: Commit, candidate: Commit, reply: UpdateReply): (next: Phase)
    ensures CandidateOf(next) == Some(candidate)
  {
    AtObserve(seen, candidate, reply != Accepted && reply != Rejected, reply == Accepted)
  }

  function End(code: string, effect: Effect, candidate: Commit): Phase {
    Finished(Failed(code, effect), Some(candidate))
  }

  // _move_ref_or_reconcile after the update call: the head that is read back, and whether the candidate
  // is an ancestor of it as far as the backend can tell.
  function AfterObserve(x: Session, candidate: Commit, raised: bool, moved: bool, head: Reply<Option<Commit>>, reachable: Option<bool>): (next: Phase)
    ensures CandidateOf(next) == Some(candidate)
  {
    if head.Raises? then End("WRITE_OUTCOME_UNKNOWN", Unknown, candidate)
    else if raised then
      if head.value == Some(candidate) then AtVerifyHead(candidate)
      else
        var reach := if head.value.None? then None else reachable;
        if reach == Some(true) then End("POSTWRITE_HEAD_MISMATCH", PresentUnverified, candidate)
        else if reach == Some(false) && head.value != Some(x.expected) then End("REF_UPDATE_STALE", NoneEstablished, candidate)
        else End("WRITE_OUTCOME_UNKNOWN", Unknown, candidate)
    else if moved || head.value == Some(candidate) then AtVerifyHead(candidate)
    else if head.value != Some(x.expected) then End("REF_UPDATE_STALE", NoneEstablished, candidate)
    else End("REF_UPDATE_REJECTED", NoneEstablished, candidate)
  }

  function AfterVerifyHead(candidate: Commit, head: Reply<Option<Commit>>): (next: Phase)
    ensures CandidateOf(next) == Some(candidate)
  {
    if head != Returns(Some(candidate)) then End("POSTWRITE_HEAD_MISMATCH", PresentUnverified, candidate)
    else AtVerifyObjects(candidate)
  }

  function ChangedPaths(c: Commit): set<Path>
    requires |c.parents| == 1
  {
    var before := c.parents[0].tree;
    set p | p in before.Keys + c.tree.Keys && (p !in before || p !in c.tree || before[p] != c.tree[p])
  }

  // The commit and the file as read back. A read can raise, or find nothing.
  function AfterVerifyObjects(x: Session, candidate: Commit, commit: Reply<Option<Commit>>, file: Reply<Option<string>>): (next: Phase)
    ensures CandidateOf(next) == Some(candidate)
  {
    var path := PathOf(x.msg.messageId);
    if commit.Raises? then Finished(Escaped, Some(candidate))
    else if commit.value.None? || commit.value.value.parents != [x.expected] || commit.value.value.tree != candidate.tree then
      End("POSTWRITE_COMMIT_SHAPE_MISMATCH", PresentUnverified, candidate)
    else if ChangedPaths(commit.value.value) != {path} then End("POSTWRITE_PATH_MISMATCH", PresentUnverified, candidate)
    else if file.Raises? then Finished(Escaped, Some(candidate))
    else if file.value.None? then End("POSTWRITE_PATH_MISMATCH", PresentUnverified, candidate)
    else if file.value.value != x.text then End("POSTWRITE_CONTENT_MISMATCH", PresentUnverified, candidate)
    else if ParseMessage(file.value.value) != Ok(x.msg) then End("POSTWRITE_METADATA_MISMATCH", PresentUnverified, candidate)
    else AtFinalControl(candidate)
  }

  function AfterFinalControl(x: Session, candidate: Commit, raises: bool): (next: Phase)
    ensures CandidateOf(next) == Some(candidate)
  {
    if raises then End("RECEIPT_INCOMPLETE", PresentVerified, candidate)
    else Finished(Done(Receipt("APPENDED", x.expected, candidate, x.expected, PathOf(x.msg.messageId),
                               x.msg.messageId, x.msg.prev, x.text)), Some(candidate))
  }

  // _reconstruct_existing: the objects of a message that is already on the lane.
  function AfterExisting(x: Session, m: CommittedMessage, commit: Reply<Option<Commit>>, file: Reply<Option<string>>): (next: Phase)
    ensures CandidateOf(next).None?
  {
    hide ParseMessage;
    hide ChangedPaths;
    hide PathOf;
    if commit.Raises? || file.Raises? then Finished(Escaped, None)
    else if commit.value.None? || file.value.None? || |commit.value.value.parents| != 1
            || m.path !in ChangedPaths(commit.value.value) then
      Finished(Failed("RECEIPT_INCOMPLETE", PresentUnverified), None)
    else if file.value.value != x.text then Finished(Failed("POSTWRITE_CONTENT_MISMATCH", PresentUnverified), None)
    else if m.content != file.value.value then Finished(Failed("RECEIPT_INCOMPLETE", PresentUnverified), None)
    else if ParseMessage(file.value.value) != Ok(x.msg) then Finished(Failed("POSTWRITE_METADATA_MISMATCH", PresentUnverified), None)
    else AtExistingControl(m, commit.value.value.parents[0])
  }

  function AfterExistingControl(x: Session, m: CommittedMessage, parent: Commit, raises: bool): (next: Phase)
    ensures CandidateOf(next).None?
  {
    if raises then Finished(Failed("RECEIPT_INCOMPLETE", PresentVerified), None)
    else Finished(Done(Receipt("ALREADY_COMMITTED", x.expected, m.commit, parent, m.path,
                               x.msg.messageId, x.msg.prev, x.text)), None)
  }

  // ---- The lane and everybody who uses it ----

  datatype ReadMode = ReadRaises | ReadMissing | ReadTrue

  function Read<T>(mode: ReadMode, truth: T): Reply<Option<T>> {
    match mode
    case ReadRaises => Raises
    case ReadMissing => Returns(None)
    case ReadTrue => Returns(Some(truth))
  }

  datatype Event =
    | BeginAppend(a: nat, identity: string, expected: Commit, text: string)
    | ReadControl(a: nat, control: Reply<Option<LaneBinding>>)
    | ReadHead(a: nat, mode: ReadMode)
    | ReadHistory(a: nat, history: Reply<History>)
    | CheckPath(a: nat, raises: bool)
    | BuildObjects(a: nat, note: nat, failed: Option<string>)
    | ReadControlAgain(a: nat, control: Reply<Option<LaneBinding>>)
    | UpdateRef(a: nat, reply: UpdateReply)
    | ObserveHead(a: nat, mode: ReadMode, reachable: Option<bool>)
    | VerifyHead(a: nat, mode: ReadMode)
    | VerifyObjects(a: nat, commitMode: ReadMode, fileMode: ReadMode)
    | ReadFinalControl(a: nat, raises: bool)
    | ReadExisting(a: nat, commitMode: ReadMode, fileMode: ReadMode)
    | ReadExistingControl(a: nat, raises: bool)
    | LandLate(candidate: Commit)
    | LoseLate(candidate: Commit)
    | Advance(commit: Commit)

  predicate IsMessagePath(p: Path) {
    StartsWith(p, "messages/") && EndsWith(p, ".md")
  }

  predicate Introduces(c: Commit, p: Path) {
    && p in c.tree
    && (c.parents == [] || p !in c.parents[0].tree || c.parents[0].tree[p] != c.tree[p])
  }

  // Commit c of the history of head brings in a message at path p.
  ghost predicate Carries(head: Commit, c: Commit, p: Path) {
    Ancestor(c, head) && Introduces(c, p) && IsMessagePath(p) && ParseMessage(c.tree[p]).Ok?
  }

  ghost predicate MessageOnLane(head: Commit, m: CommittedMessage) {
    && Carries(head, m.commit, m.path)
    && m.content == m.commit.tree[m.path]
    && m.messageId == ParseMessage(m.content).value.messageId
    && m.prev == ParseMessage(m.content).value.prev
  }

  // What a complete identity history says of the branch head it was read at.
  ghost predicate TrueHistory(head: Commit, h: History) {
    && (forall m :: m in h.messages ==> MessageOnLane(head, m))
    && (forall c, p :: Carries(head, c, p) ==> exists m :: m in h.messages && m.commit == c && m.path == p)
    && (forall id :: id in h.tips <==> Tip(h.messages, id))
    && (forall i, j :: 0 <= i < j < |h.tips| ==> h.tips[i] != h.tips[j])
  }

  // A message that no other message names as its predecessor.
  ghost predicate Tip(messages: seq<CommittedMessage>, id: string) {
    && (exists m :: m in messages && m.messageId == id)
    && (forall m :: m in messages ==> m.prev != Some(id))
  }

  function PhaseOf(s: Lane, a: nat): Phase
    requires a in s.sessions
  {
    s.sessions[a].phase
  }

  // Backend replies are truthful when they return at all, ref updates only fast-forward, object ids are
  // fresh, and nobody else publishes an appender's unpublished commit.
  ghost predicate Legal(s: Lane, e: Event) {
    match e
    case BeginAppend(a, _, _, _) => a !in s.sessions
    case ReadControl(a, _) => a in s.sessions && PhaseOf(s, a).AtControl?
    case ReadHead(a, _) => a in s.sessions && PhaseOf(s, a).AtHead?
    case ReadHistory(a, history) =>
      && a in s.sessions && PhaseOf(s, a).AtHistory?
      && (history.Returns? && history.value.complete ==> TrueHistory(s.head, history.value))
    case CheckPath(a, _) => a in s.sessions && PhaseOf(s, a).AtPath?
    case BuildObjects(a, note, _) =>
      && a in s.sessions && PhaseOf(s, a).AtBuild?
      && !Ancestor(Candidate(s.sessions[a], note), s.head)
      && !IsCandidate(s, Candidate(s.sessions[a], note))
    case ReadControlAgain(a, _) => a in s.sessions && PhaseOf(s, a).AtRecheck?
    case UpdateRef(a, reply) =>
      && a in s.sessions && PhaseOf(s, a).AtUpdate?
      && (reply in {Accepted, RaisedLanded} ==> Ancestor(s.head, PhaseOf(s, a).candidate))
    case ObserveHead(a, _, reachable) =>
      && a in s.sessions && PhaseOf(s, a).AtObserve?
      && (reachable.Some? ==> reachable.value == Ancestor(PhaseOf(s, a).candidate, s.head))
    case VerifyHead(a, _) => a in s.sessions && PhaseOf(s, a).AtVerifyHead?
    case VerifyObjects(a, _, _) => a in s.sessions && PhaseOf(s, a).AtVerifyObjects?
    case ReadFinalControl(a, _) => a in s.sessions && PhaseOf(s, a).AtFinalControl?
    case ReadExisting(a, _, _) => a in s.sessions && PhaseOf(s, a).AtExisting?
    case ReadExistingControl(a, _) => a in s.sessions && PhaseOf(s, a).AtExistingControl?
    case LandLate(c) => c in s.pending && Ancestor(s.head, c)
    case LoseLate(c) => c in s.pending
    case Advance(commit) =>
      && Ancestor(s.head, commit)
      && forall c :: IsCandidate(s, c) && Ancestor(c, commit) ==> Ancestor(c, s.head)
  }

  function SetPhase(s: Lane, a: nat, phase: Phase): Lane
    requires a in s.sessions
  {
    s.(sessions := s.sessions[a := s.sessions[a].(phase := phase)])
  }

  function Updated(s: Lane, a: nat, reply: UpdateReply): Lane
    requires a in s.sessions && PhaseOf(s, a).AtUpdate?
  {
    var AtUpdate(seen, candidate) := PhaseOf(s, a);
    var t := SetPhase(s, a, AfterUpdate(seen, candidate, reply));
    match reply
    case Accepted => t.(head := candidate)
    case RaisedLanded => t.(head := candidate)
    case RaisedPending => t.(pending := t.pending[candidate := a])
    case _ => t
  }

  // What a call of append a does that changes nothing but that append's own phase.
  ghost function NextPhase(s: Lane, e: Event): Phase
    requires Legal(s, e)
    requires !e.BeginAppend? && !e.UpdateRef? && !e.LandLate? && !e.LoseLate? && !e.Advance?
  {
    var x := s.sessions[e.a];
    match e
    case ReadControl(_, control) => AfterControl(x, control)
    case ReadHead(_, mode) => AfterHead(x.phase.binding, Read(mode, s.head))
    case ReadHistory(_, history) => AfterHistory(x, x.phase.binding, x.phase.observed, s.head, history)
    case CheckPath(_, raises) => AfterPath(x, x.phase.binding, x.phase.seen, raises)
    case BuildObjects(_, note, failed) => AfterBuild(x, x.phase.binding, x.phase.seen, note, failed)
    case ReadControlAgain(_, control) => AfterRecheck(x.phase.binding, x.phase.seen, x.phase.candidate, control)
    case ObserveHead(_, mode, reachable) =>
      AfterObserve(x, x.phase.candidate, x.phase.raised, x.phase.moved, Read(mode, s.head), reachable)
    case VerifyHead(_, mode) => AfterVerifyHead(x.phase.candidate, Read(mode, s.head))
    case VerifyObjects(_, commitMode, fileMode) =>
      var c, path := x.phase.candidate, PathOf(x.msg.messageId);
      AfterVerifyObjects(x, c, Read(commitMode, c), if path in c.tree then Read(fileMode, c.tree[path]) else Returns(None))
    case ReadFinalControl(_, raises) => AfterFinalControl(x, x.phase.candidate, raises)
    case ReadExisting(_, commitMode, fileMode) =>
      var m := x.phase.existing;
      AfterExisting(x, m, Read(commitMode, m.commit), if m.path in m.commit.tree then Read(fileMode, m.commit.tree[m.path]) else Returns(None))
    case ReadExistingControl(_, raises) => AfterExistingControl(x, x.phase.existing, x.phase.parent, raises)
  }

  ghost function Next(s: Lane, e: Event): Lane
    requires Legal(s, e)
  {
    match e
    case BeginAppend(a, identity, expected, text) => s.(sessions := s.sessions[a := Begin(identity, expected, text)])
    case UpdateRef(a, reply) => Updated(s, a, reply)
    case LandLate(c) => s.(head := c, pending := s.pending - {c})
    case LoseLate(c) => s.(pending := s.pending - {c})
    case Advance(commit) => s.(head := commit)
    case _ => SetPhase(s, e.a, NextPhase(s, e))
  }

  ghost predicate LegalRun(s: Lane, events: seq<Event>)
    decreases |events|
  {
    events == [] || (Legal(s, events[0]) && LegalRun(Next(s, events[0]), events[1..]))
  }

  ghost function Run(s: Lane, events: seq<Event>): Lane
    requires LegalRun(s, events)
    decreases |events|
  {
    if events == [] then s else Run(Next(s, events[0]), events[1..])
  }

  // ---- What every run keeps ----

  // No message on the history of head has this id.
  ghost predicate Fresh(head: Commit, id: string) {
    forall c, p :: Carries(head, c, p) ==> ParseMessage(c.tree[p]).value.messageId != id
  }

  // The commit is the one this append builds: one parent, the expected head, and one new file.
  predicate Made(x: Session, c: Commit) {
    && ParseMessage(x.text) == Ok(x.msg)
    && PathOf(x.msg.messageId) !in x.expected.tree
    && c.parents == [x.expected]
    && c.tree == x.expected.tree[PathOf(x.msg.messageId) := x.text]
  }

  // The head the history was read at: the expected head is on it, and the message is not.
  ghost predicate Preflight(head: Commit, x: Session, seen: Commit) {
    && ParseMessage(x.text) == Ok(x.msg)
    && Ancestor(x.expected, seen) && Ancestor(seen, head)
    && Fresh(seen, x.msg.messageId)
    && (Tidy(seen) && Chained(Messages(seen)) ==> Follows(Messages(seen), x.msg))
  }

  predicate Landed(head: Commit, c: Commit) {
    Ancestor(c, head)
  }

  predicate Unpublished(head: Commit, pending: set<Commit>, c: Commit) {
    !Ancestor(c, head) && c !in pending
  }

  // The branch does not have c, and no update still under way can put it there.
  predicate NeverLands(head: Commit, pending: set<Commit>, c: Commit) {
    !Ancestor(c, head) && (c in pending ==> !Ancestor(head, c))
  }

  predicate EffectTrue(head: Commit, pending: set<Commit>, effect: Effect, c: Commit) {
    match effect
    case NoneEstablished => NeverLands(head, pending, c)
    case Unknown => true
    case _ => Landed(head, c)
  }

  // What a finished append's error or receipt says of the branch.
  ghost predicate OutcomeTrue(head: Commit, pending: set<Commit>, x: Session, outcome: Outcome, made: Option<Commit>) {
    match made
    case Some(c) =>
      && Made(x, c) && Ancestor(x.expected, head)
      && (match outcome
          case Escaped => Landed(head, c)
          case Failed(_, effect) => EffectTrue(head, pending, effect, c)
          case Done(r) => Landed(head, c) && r.result == "APPENDED" && ReceiptTrue(head, x, r) && r.commit == c && r.parent == x.expected)
    case None =>
      match outcome
      case Escaped => true
      case Failed(_, NoneEstablished) => true
      case Failed(_, Unknown) => false
      case Failed(_, _) => exists c, p :: Carries(head, c, p) && c.tree[p] == x.text
      case Done(r) => r.result == "ALREADY_COMMITTED" && ReceiptTrue(head, x, r)
  }

  // The commit is on the branch, has the named parent alone, changes the path, and holds the exact text.
  ghost predicate ReceiptTrue(head: Commit, x: Session, r: Receipt) {
    && r.expectedHead == x.expected && r.messageId == x.msg.messageId && r.prev == x.msg.prev && r.content == x.text
    && ParseMessage(x.text) == Ok(x.msg)
    && Landed(head, r.commit) && r.commit.parents == [r.parent]
    && r.path in r.commit.tree && r.commit.tree[r.path] == x.text
    && r.path in ChangedPaths(r.commit)
    && (r.result == "APPENDED" ==> r.path == PathOf(x.msg.messageId) && ChangedPaths(r.commit) == {r.path})
  }

  ghost predicate SessionOk(head: Commit, pending: set<Commit>, x: Session) {
    match x.phase
    case AtControl => ParseMessage(x.text) == Ok(x.msg)
    case AtHead(_) => ParseMessage(x.text) == Ok(x.msg)
    case AtHistory(_, observed) => ParseMessage(x.text) == Ok(x.msg) && Ancestor(observed, head)
    case AtPath(_, seen) => Preflight(head, x, seen)
    case AtBuild(_, seen) => Preflight(head, x, seen) && PathOf(x.msg.messageId) !in x.expected.tree
    case AtRecheck(_, seen, c) => Preflight(head, x, seen) && Made(x, c) && Unpublished(head, pending, c)
    case AtUpdate(seen, c) => Preflight(head, x, seen) && Made(x, c) && Unpublished(head, pending, c)
    case AtObserve(seen, c, raised, moved) =>
      && Preflight(head, x, seen) && Made(x, c)
      && (moved ==> Landed(head, c))
      && (!raised && !moved ==> Unpublished(head, pending, c))
    case AtVerifyHead(c) => Made(x, c) && Ancestor(x.expected, head) && Landed(head, c)
    case AtVerifyObjects(c) => Made(x, c) && Ancestor(x.expected, head) && Landed(head, c)
    case AtFinalControl(c) => Made(x, c) && Ancestor(x.expected, head) && Landed(head, c)
    case AtExisting(m) =>
      && ParseMessage(x.text) == Ok(x.msg) && MessageOnLane(head, m)
      && m.messageId == x.msg.messageId && m.content == x.text
    case AtExistingControl(m, parent) =>
      && ParseMessage(x.text) == Ok(x.msg) && MessageOnLane(head, m) && m.content == x.text
      && m.commit.parents == [parent] && m.path in ChangedPaths(m.commit)
    case Finished(outcome, made) => OutcomeTrue(head, pending, x, outcome, made)
  }

  ghost predicate SessionsOk(s: Lane) {
    forall a :: a in s.sessions ==> SessionOk(s.head, s.pending.Keys, s.sessions[a])
  }

  ghost predicate OwnCandidates(s: Lane) {
    forall a, b :: a in s.sessions && b in s.sessions && a != b && CandidateOf(PhaseOf(s, a)).Some?
                   ==> CandidateOf(PhaseOf(s, a)) != CandidateOf(PhaseOf(s, b))
  }

  ghost predicate Prepared(head: Commit, x: Session) {
    exists seen :: Preflight(head, x, seen)
  }

  ghost predicate PendingOk(s: Lane) {
    forall c :: c in s.pending ==>
                  && s.pending[c] in s.sessions && CandidateOf(PhaseOf(s, s.pending[c])) == Some(c)
                  && !Ancestor(c, s.head) && Prepared(s.head, s.sessions[s.pending[c]])
  }

  // Two appends of one message id are never both on the branch.
  ghost predicate OnceEach(s: Lane) {
    forall a, b :: a in s.sessions && b in s.sessions && a != b && Published(s, a) && Published(s, b)
                   ==> s.sessions[a].msg.messageId != s.sessions[b].msg.messageId
  }

  predicate Published(s: Lane, a: nat)
    requires a in s.sessions
  {
    var made := CandidateOf(PhaseOf(s, a));
    made.Some? && Ancestor(made.value, s.head)
  }

  ghost predicate Inv(s: Lane) {
    SessionsOk(s) && OwnCandidates(s) && PendingOk(s) && OnceEach(s)
  }

  // ---- The messages of a branch in commit order ----

  predicate BringsMessage(c: Commit) {
    exists p :: p in c.tree && Introduces(c, p) && IsMessagePath(p)
  }

  ghost predicate OneMessage(c: Commit) {
    forall p, q :: Introduces(c, p) && Introduces(c, q) && IsMessagePath(p) && IsMessagePath(q) ==> p == q
  }

  // No merges, and no commit brings in more than one message.
  ghost predicate Tidy(c: Commit) {
    && |c.parents| <= 1
    && OneMessage(c)
    && (|c.parents| == 1 ==> Tidy(c.parents[0]))
  }

  ghost function Own(c: Commit): seq<string> {
    if BringsMessage(c) then
      var p :| p in c.tree && Introduces(c, p) && IsMessagePath(p);
      [c.tree[p]]
    else []
  }

  ghost function Messages(c: Commit): seq<string> {
    (if c.parents == [] then [] else Messages(c.parents[0])) + Own(c)
  }

  function IdOf(text: string): string {
    var parsed := ParseMessage(text);
    if parsed.Ok? then parsed.value.messageId else ""
  }

  // The id of entry i - 1, which entry i has to name.
  function Before(log: seq<string>, i: nat): Option<string>
    requires i <= |log|
  {
    if i == 0 then None else Some(IdOf(log[i - 1]))
  }

  predicate Linked(log: seq<string>, i: nat)
    requires i < |log|
  {
    ParseMessage(log[i]).Ok? && ParseMessage(log[i]).value.prev == Before(log, i)
  }

  // Every message parses, no id repeats, and each names the one before it.
  predicate Chained(log: seq<string>) {
    && (forall i :: 0 <= i < |log| ==> Linked(log, i))
    && (forall i, j :: 0 <= i < j < |log| ==> IdOf(log[i]) != IdOf(log[j]))
  }

  predicate Unused(log: seq<string>, id: string) {
    forall i :: 0 <= i < |log| ==> IdOf(log[i]) != id
  }

  predicate Follows(log: seq<string>, msg: Parsed) {
    Unused(log, msg.messageId) && msg.prev == Before(log, |log|)
  }

  // ---- The branch grows ----

  // What happened to the branch between two states, as far as candidate c is concerned.
  ghost predicate Grown(head: Commit, pending: set<Commit>, head': Commit, pending': set<Commit>, made: Option<Commit>) {
    && Ancestor(head, head')
    && (made.Some? ==>
          && (Ancestor(made.value, head') ==> Ancestor(made.value, head) || (made.value in pending && Ancestor(head, made.value)))
          && (made.value in pending' ==> made.value in pending))
  }

  lemma CarriesKept(head: Commit, head': Commit, c: Commit, p: Path)
    requires Carries(head, c, p) && Ancestor(head, head')
    ensures Carries(head', c, p)
  {
    AncestorTransitive(c, head, head');
  }

  lemma NeverLandsKept(head: Commit, pending: set<Commit>, head': Commit, pending': set<Commit>, c: Commit)
    requires NeverLands(head, pending, c) && Grown(head, pending, head', pending', Some(c))
    ensures NeverLands(head', pending', c)
  {
    if Ancestor(head', c) { AncestorTransitive(head, head', c); }
  }

  lemma OutcomeKept(head: Commit, pending: set<Commit>, head': Commit, pending': set<Commit>, x: Session, outcome: Outcome, made: Option<Commit>)
    requires OutcomeTrue(head, pending, x, outcome, made) && Grown(head, pending, head', pending', made)
    ensures OutcomeTrue(head', pending', x, outcome, made)
  {
    match made {
      case Some(c) =>
        AncestorTransitive(x.expected, head, head');
        if Landed(head, c) { AncestorTransitive(c, head, head'); }
        if NeverLands(head, pending, c) { NeverLandsKept(head, pending, head', pending', c); }
      case None =>
        match outcome {
          case Done(r) => AncestorTransitive(r.commit, head, head');
          case Failed(_, effect) =>
            if effect != NoneEstablished {
              var c, p :| Carries(head, c, p) && c.tree[p] == x.text;
              CarriesKept(head, head', c, p);
            }
          case Escaped =>
        }
    }
  }

  lemma SessionKept(head: Commit, pending: set<Commit>, head': Commit, pending': set<Commit>, x: Session)
    requires SessionOk(head, pending, x) && Grown(head, pending, head', pending', CandidateOf(x.phase))
    ensures SessionOk(head', pending', x)
  {
    match x.phase {
      case AtControl =>
      case AtHead(_) =>
      case AtHistory(_, observed) => AncestorTransitive(observed, head, head');
      case AtPath(_, seen) => AncestorTransitive(seen, head, head');
      case AtBuild(_, seen) => AncestorTransitive(seen, head, head');
      case AtRecheck(_, seen, _) => AncestorTransitive(seen, head, head');
      case AtUpdate(seen, _) => AncestorTransitive(seen, head, head');
      case AtObserve(seen, c, _, _) =>
        AncestorTransitive(seen, head, head');
        if Landed(head, c) { AncestorTransitive(c, head, head'); }
      case AtVerifyHead(c) => LandedKept(head, head', x, c);
      case AtVerifyObjects(c) => LandedKept(head, head', x, c);
      case AtFinalControl(c) => LandedKept(head, head', x, c);
      case AtExisting(m) => CarriesKept(head, head', m.commit, m.path);
      case AtExistingControl(m, _) => CarriesKept(head, head', m.commit, m.path);
      case Finished(outcome, made) => OutcomeKept(head, pending, head', pending', x, outcome, made);
    }
  }

  lemma LandedKept(head: Commit, head': Commit, x: Session, c: Commit)
    requires Ancestor(x.expected, head) && Landed(head, c) && Ancestor(head, head')
    ensures Ancestor(x.expected, head') && Landed(head', c)
  {
    AncestorTransitive(x.expected, head, head');
    AncestorTransitive(c, head, head');
  }

  // ---- One call of one append ----

  // The append keeps its candidate, or has just built one that nobody knew.
  ghost predicate CandidateKept(s: Lane, before: Phase, after: Phase) {
    || CandidateOf(after) == CandidateOf(before)
    || (CandidateOf(before).None? && CandidateOf(after).Some?
        && !IsCandidate(s, CandidateOf(after).value) && !Ancestor(CandidateOf(after).value, s.head))
  }

  lemma {:induction false} WithIdMembers(messages: seq<CommittedMessage>, id: string)
    ensures forall m :: m in WithId(messages, id) <==> m in messages && m.messageId == id
  {
    if messages != [] {
      WithIdMembers(messages[1..], id);
    }
  }

  lemma HistorySaysFresh(head: Commit, h: History, id: string)
    requires TrueHistory(head, h) && WithId(h.messages, id) == []
    ensures Fresh(head, id)
  {
    WithIdMembers(h.messages, id);
    forall c, p | Carries(head, c, p)
      ensures ParseMessage(c.tree[p]).value.messageId != id
    {
      var m :| m in h.messages && m.commit == c && m.path == p;
      assert MessageOnLane(head, m);
    }
  }

  lemma {:induction false} MessageInLog(head: Commit, c: Commit, p: Path)
    requires Tidy(head) && Carries(head, c, p)
    ensures c.tree[p] in Messages(head)
  {
    hide ParseMessage;
    hide IsMessagePath;
    if c == head {
      assert BringsMessage(c);
    } else {
      MessageInLog(head.parents[0], c, p);
    }
  }

  // Every entry of the log stands in a commit of the branch.
  lemma {:induction false} LogEntryCarried(head: Commit, i: nat) returns (c: Commit, p: Path)
    requires i < |Messages(head)| && Tidy(head) && ParseMessage(Messages(head)[i]).Ok?
    ensures Carries(head, c, p) && c.tree[p] == Messages(head)[i]
  {
    var before := if head.parents == [] then [] else Messages(head.parents[0]);
    if i < |before| {
      c, p := LogEntryCarried(head.parents[0], i);
    } else {
      c := head;
      p :| p in c.tree && Introduces(c, p) && IsMessagePath(p) && Own(c) == [c.tree[p]];
    }
  }

  // The history holds a message for each entry of the log.
  lemma EntryInHistory(head: Commit, h: History, i: nat) returns (m: CommittedMessage)
    requires TrueHistory(head, h) && Tidy(head) && i < |Messages(head)| && Linked(Messages(head), i)
    ensures m in h.messages && m.messageId == IdOf(Messages(head)[i])
  {
    var c, p := LogEntryCarried(head, i);
    m :| m in h.messages && m.commit == c && m.path == p;
    assert MessageOnLane(head, m);
  }

  // The log has an entry for each message of the history.
  lemma HistoryInLog(head: Commit, h: History, m: CommittedMessage) returns (i: nat)
    requires TrueHistory(head, h) && Tidy(head) && Chained(Messages(head)) && m in h.messages
    ensures i < |Messages(head)| && m.prev == Before(Messages(head), i)
  {
    assert MessageOnLane(head, m);
    MessageInLog(head, m.commit, m.path);
    i :| 0 <= i < |Messages(head)| && Messages(head)[i] == m.content;
    assert Linked(Messages(head), i);
  }

  lemma NobodyNamesTheLast(log: seq<string>, i: nat)
    requires Chained(log) && i < |log|
    ensures Before(log, i) != Some(IdOf(log[|log| - 1]))
  {
  }

  // On a chain of messages, the last is a tip.
  lemma LastIsTip(head: Commit, h: History)
    requires TrueHistory(head, h) && Tidy(head) && Chained(Messages(head)) && Messages(head) != []
    ensures Tip(h.messages, IdOf(Messages(head)[|Messages(head)| - 1]))
  {
    hide IdOf;
    hide Before;
    hide Tidy;
    hide Messages;
    hide TrueHistory;
    hide ParseMessage;
    hide Linked;
    var log := Messages(head);
    assert Linked(log, |log| - 1);
    var last := EntryInHistory(head, h, |log| - 1);
    forall n | n in h.messages
      ensures n.prev != Some(last.messageId)
    {
      var i := HistoryInLog(head, h, n);
      NobodyNamesTheLast(log, i);
    }
  }

  lemma OnlyTip(head: Commit, h: History, id: string)
    requires TrueHistory(head, h) && Tip(h.messages, id) && |h.tips| <= 1
    ensures h.tips == [id]
  {
    hide Tip;
    hide MessageOnLane;
    hide Carries;
    assert id in h.tips;
  }

  lemma NoMessagesNoTip(head: Commit, h: History)
    requires TrueHistory(head, h) && Tidy(head) && Messages(head) == []
    ensures h.tips == []
  {
    if |h.tips| > 0 {
      assert h.tips[0] in h.tips;
      var m :| m in h.messages && m.messageId == h.tips[0];
      assert MessageOnLane(head, m);
      MessageInLog(head, m.commit, m.path);
      assert false;
    }
  }

  lemma FreshInLog(head: Commit, id: string)
    requires Fresh(head, id) && Tidy(head) && Chained(Messages(head))
    ensures Unused(Messages(head), id)
  {
    forall i | 0 <= i < |Messages(head)|
      ensures IdOf(Messages(head)[i]) != id
    {
      assert Linked(Messages(head), i);
      var c, p := LogEntryCarried(head, i);
    }
  }

  lemma PredecessorChecked(head: Commit, h: History, msg: Parsed)
    requires TrueHistory(head, h) && Tidy(head) && Chained(Messages(head))
    requires Fresh(head, msg.messageId) && PredecessorError(h, msg).None?
    ensures Follows(Messages(head), msg)
  {
    hide Chained;
    hide Messages;
    hide Tidy;
    hide Fresh;
    hide IdOf;
    hide Unused;
    hide TrueHistory;
    hide Tip;
    FreshInLog(head, msg.messageId);
    if Messages(head) != [] {
      LastIsTip(head, h);
      OnlyTip(head, h, IdOf(Messages(head)[|Messages(head)| - 1]));
    } else {
      NoMessagesNoTip(head, h);
    }
  }

  lemma ControlKeepsOk(head: Commit, pending: set<Commit>, x: Session, reply: Reply<Option<LaneBinding>>)
    requires SessionOk(head, pending, x) && x.phase.AtControl?
    ensures SessionOk(head, pending, x.(phase := AfterControl(x, reply)))
  {
    hide ParseMessage;
    hide Fold;
  }

  lemma HeadKeepsOk(head: Commit, pending: set<Commit>, x: Session, reply: Reply<Option<Commit>>)
    requires SessionOk(head, pending, x) && x.phase.AtHead?
    requires reply.Returns? && reply.value.Some? ==> reply.value.value == head
    ensures SessionOk(head, pending, x.(phase := AfterHead(x.phase.binding, reply)))
  {
  }

  lemma PathKeepsOk(head: Commit, pending: set<Commit>, x: Session, raises: bool)
    requires SessionOk(head, pending, x) && x.phase.AtPath?
    ensures SessionOk(head, pending, x.(phase := AfterPath(x, x.phase.binding, x.phase.seen, raises)))
  {
  }

  lemma HistoryKeepsOk(head: Commit, pending: set<Commit>, x: Session, reply: Reply<History>)
    requires SessionOk(head, pending, x) && x.phase.AtHistory?
    requires reply.Returns? && reply.value.complete ==> TrueHistory(head, reply.value)
    ensures SessionOk(head, pending, x.(phase := AfterHistory(x, x.phase.binding, x.phase.observed, head, reply)))
  {
    hide ParseMessage;
    hide Tidy;
    hide Chained;
    hide Follows;
    hide PredecessorError;
    if reply.Returns? && reply.value.complete {
      var h, id := reply.value, x.msg.messageId;
      WithIdMembers(h.messages, id);
      var found := WithId(h.messages, id);
      if found == [] {
        HistorySaysFresh(head, h, id);
        if x.phase.observed == x.expected && PredecessorError(h, x.msg).None? && Tidy(head) && Chained(Messages(head)) {
          PredecessorChecked(head, h, x.msg);
        }
      } else {
        assert found[0] in found;
      }
    }
  }

  lemma PreflightHead(head: Commit, x: Session, seen: Commit)
    requires Preflight(head, x, seen)
    ensures Ancestor(x.expected, head)
  {
    AncestorTransitive(x.expected, seen, head);
  }

  lemma BuildKeepsOk(head: Commit, pending: set<Commit>, x: Session, note: nat, failed: Option<string>)
    requires SessionOk(head, pending, x) && x.phase.AtBuild?
    requires Unpublished(head, pending, Candidate(x, note))
    ensures SessionOk(head, pending, x.(phase := AfterBuild(x, x.phase.binding, x.phase.seen, note, failed)))
  {
  }

  lemma RecheckKeepsOk(head: Commit, pending: set<Commit>, x: Session, reply: Reply<Option<LaneBinding>>)
    requires SessionOk(head, pending, x) && x.phase.AtRecheck?
    ensures SessionOk(head, pending, x.(phase := AfterRecheck(x.phase.binding, x.phase.seen, x.phase.candidate, reply)))
  {
    PreflightHead(head, x, x.phase.seen);
  }

  // A head that has left the expected head behind cannot be fast-forwarded to its child any more.
  lemma MovedOn(head: Commit, x: Session, c: Commit)
    requires Made(x, c) && Ancestor(x.expected, head) && !Ancestor(c, head)
    ensures Ancestor(head, c) <==> head == x.expected
  {
    ChildAncestors(head, c, x.expected);
    if Ancestor(head, x.expected) { AncestorAntisymmetric(head, x.expected); }
  }

  // Reading the head back after an update leads to a true classification or on to the verification.
  lemma ObservedTrue(head: Commit, pending: set<Commit>, x: Session, c: Commit, raised: bool, moved: bool,
                     reply: Reply<Option<Commit>>, reachable: Option<bool>)
    requires Made(x, c) && Ancestor(x.expected, head)
    requires moved ==> Landed(head, c)
    requires !raised && !moved ==> Unpublished(head, pending, c)
    requires reply.Returns? && reply.value.Some? ==> reply.value.value == head
    requires reachable.Some? ==> reachable.value == Ancestor(c, head)
    ensures var next := AfterObserve(x, c, raised, moved, reply, reachable);
            || (next == AtVerifyHead(c) && Landed(head, c))
            || (next.Finished? && next.outcome.Failed? && next.made == Some(c) && EffectTrue(head, pending, next.outcome.effect, c))
  {
    hide ParseMessage;
    if !Ancestor(c, head) { MovedOn(head, x, c); }
  }

  lemma ObserveKeepsOk(head: Commit, pending: set<Commit>, x: Session, reply: Reply<Option<Commit>>, reachable: Option<bool>)
    requires SessionOk(head, pending, x) && x.phase.AtObserve?
    requires reply.Returns? && reply.value.Some? ==> reply.value.value == head
    requires reachable.Some? ==> reachable.value == Ancestor(x.phase.candidate, head)
    ensures SessionOk(head, pending, x.(phase := AfterObserve(x, x.phase.candidate, x.phase.raised, x.phase.moved, reply, reachable)))
  {
    PreflightHead(head, x, x.phase.seen);
    ObservedTrue(head, pending, x, x.phase.candidate, x.phase.raised, x.phase.moved, reply, reachable);
  }

  lemma ChangedByCandidate(x: Session, c: Commit)
    requires Made(x, c)
    ensures ChangedPaths(c) == {PathOf(x.msg.messageId)}
  {
    assert PathOf(x.msg.messageId) in c.tree;
  }

  lemma VerifyHeadKeepsOk(head: Commit, pending: set<Commit>, x: Session, reply: Reply<Option<Commit>>)
    requires SessionOk(head, pending, x) && x.phase.AtVerifyHead?
    ensures SessionOk(head, pending, x.(phase := AfterVerifyHead(x.phase.candidate, reply)))
  {
  }

  lemma VerifiedTrue(x: Session, c: Commit, commit: Reply<Option<Commit>>, file: Reply<Option<string>>)
    ensures var next := AfterVerifyObjects(x, c, commit, file);
            || next == AtFinalControl(c) || next == Finished(Escaped, Some(c))
            || exists code :: next == End(code, PresentUnverified, c)
  {
  }

  lemma VerifyKeepsOk(head: Commit, pending: set<Commit>, x: Session, commit: Reply<Option<Commit>>, file: Reply<Option<string>>)
    requires SessionOk(head, pending, x) && x.phase.AtVerifyObjects?
    ensures SessionOk(head, pending, x.(phase := AfterVerifyObjects(x, x.phase.candidate, commit, file)))
  {
    VerifiedTrue(x, x.phase.candidate, commit, file);
  }

  lemma ReceiptKeepsOk(head: Commit, pending: set<Commit>, x: Session, raises: bool)
    requires SessionOk(head, pending, x) && x.phase.AtFinalControl?
    ensures SessionOk(head, pending, x.(phase := AfterFinalControl(x, x.phase.candidate, raises)))
  {
    ChangedByCandidate(x, x.phase.candidate);
  }

  lemma ExistingKeepsOk(head: Commit, pending: set<Commit>, x: Session, commit: Reply<Option<Commit>>, file: Reply<Option<string>>)
    requires SessionOk(head, pending, x) && x.phase.AtExisting?
    requires commit.Returns? && commit.value.Some? ==> commit.value.value == x.phase.existing.commit
    ensures SessionOk(head, pending, x.(phase := AfterExisting(x, x.phase.existing, commit, file)))
  {
    assert Carries(head, x.phase.existing.commit, x.phase.existing.path);
  }

  lemma ExistingReceiptKeepsOk(head: Commit, pending: set<Commit>, x: Session, raises: bool)
    requires SessionOk(head, pending, x) && x.phase.AtExistingControl?
    ensures SessionOk(head, pending, x.(phase := AfterExistingControl(x, x.phase.existing, x.phase.parent, raises)))
  {
    assert Carries(head, x.phase.existing.commit, x.phase.existing.path);
  }

  // Session a with its next phase; its candidate stays, or is new to everybody.
  ghost predicate PhaseChange(s: Lane, t: Lane, a: nat) {
    && a in s.sessions && t.head == s.head && t.pending == s.pending
    && t.sessions.Keys == s.sessions.Keys
    && (forall b :: b in s.sessions && b != a ==> t.sessions[b] == s.sessions[b])
    && t.sessions[a] == s.sessions[a].(phase := PhaseOf(t, a))
    && CandidateKept(s, PhaseOf(s, a), PhaseOf(t, a))
  }

  lemma ChangeKeepsSessionsOk(s: Lane, t: Lane, a: nat)
    requires PhaseChange(s, t, a) && SessionsOk(s) && SessionOk(t.head, t.pending.Keys, t.sessions[a])
    ensures SessionsOk(t)
  {
    forall b | b in t.sessions
      ensures SessionOk(t.head, t.pending.Keys, t.sessions[b])
    {
      if b != a { assert SessionOk(s.head, s.pending.Keys, s.sessions[b]); }
    }
  }

  lemma ChangeKeepsOwnCandidates(s: Lane, t: Lane, a: nat)
    requires PhaseChange(s, t, a) && OwnCandidates(s)
    ensures OwnCandidates(t)
  {
  }

  lemma ChangeKeepsPendingOk(s: Lane, t: Lane, a: nat)
    requires PhaseChange(s, t, a) && PendingOk(s)
    ensures PendingOk(t)
  {
    forall c | c in t.pending
      ensures CandidateOf(PhaseOf(t, t.pending[c])) == Some(c) && Prepared(t.head, t.sessions[t.pending[c]])
    {
      PreparedAgain(s.head, s.sessions[s.pending[c]], t.sessions[s.pending[c]]);
    }
  }

  lemma PreparedAgain(head: Commit, x: Session, y: Session)
    requires Prepared(head, x) && y == x.(phase := y.phase)
    ensures Prepared(head, y)
  {
    var seen :| Preflight(head, x, seen);
    assert Preflight(head, y, seen);
  }

  lemma ChangeKeepsOnceEach(s: Lane, t: Lane, a: nat)
    requires PhaseChange(s, t, a) && OnceEach(s)
    ensures OnceEach(t)
  {
    assert Published(t, a) ==> Published(s, a);
  }

  lemma ChangeKeepsInv(s: Lane, t: Lane, a: nat)
    requires PhaseChange(s, t, a) && Inv(s) && SessionOk(t.head, t.pending.Keys, t.sessions[a])
    ensures Inv(t)
  {
    ChangeKeepsSessionsOk(s, t, a);
    ChangeKeepsOwnCandidates(s, t, a);
    ChangeKeepsPendingOk(s, t, a);
    ChangeKeepsOnceEach(s, t, a);
  }

  predicate IsCall(e: Event) {
    !e.BeginAppend? && !e.UpdateRef? && !e.LandLate? && !e.LoseLate? && !e.Advance?
  }

  // Up to the last check before the objects are built, and for a message that is already there.
  predicate BeforeBuild(e: Event) {
    e.ReadControl? || e.ReadHead? || e.ReadHistory? || e.CheckPath? || e.ReadExisting? || e.ReadExistingControl?
  }

  lemma CallBeforeBuildKeepsOk(s: Lane, e: Event)
    requires BeforeBuild(e) && Legal(s, e) && SessionOk(s.head, s.pending.Keys, s.sessions[e.a])
    ensures SessionOk(s.head, s.pending.Keys, s.sessions[e.a].(phase := NextPhase(s, e)))
  {
    hide SessionOk;
    hide TrueHistory;
    hide IsCandidate;
    hide Ancestor;
    hide AfterControl;
    hide AfterHead;
    hide AfterHistory;
    hide AfterPath;
    hide AfterExisting;
    hide AfterExistingControl;
    var head, pending, x := s.head, s.pending.Keys, s.sessions[e.a];
    match e {
      case ReadControl(_, reply) => ControlKeepsOk(head, pending, x, reply);
      case ReadHead(_, mode) => HeadKeepsOk(head, pending, x, Read(mode, head));
      case ReadHistory(_, reply) => HistoryKeepsOk(head, pending, x, reply);
      case CheckPath(_, raises) => PathKeepsOk(head, pending, x, raises);
      case ReadExisting(_, commitMode, fileMode) =>
        var m := x.phase.existing;
        ExistingKeepsOk(head, pending, x, Read(commitMode, m.commit), if m.path in m.commit.tree then Read(fileMode, m.commit.tree[m.path]) else Returns(None));
      case ReadExistingControl(_, raises) => ExistingReceiptKeepsOk(head, pending, x, raises);
    }
  }

  lemma CallFromBuildKeepsOk(s: Lane, e: Event)
    requires IsCall(e) && !BeforeBuild(e) && Legal(s, e) && PendingOk(s)
    requires SessionOk(s.head, s.pending.Keys, s.sessions[e.a])
    ensures SessionOk(s.head, s.pending.Keys, s.sessions[e.a].(phase := NextPhase(s, e)))
  {
    hide SessionOk;
    hide TrueHistory;
    hide IsCandidate;
    hide Ancestor;
    hide AfterRecheck;
    hide AfterObserve;
    hide AfterVerifyHead;
    hide AfterVerifyObjects;
    hide AfterFinalControl;
    var head, pending, x := s.head, s.pending.Keys, s.sessions[e.a];
    match e {
      case BuildObjects(_, note, failed) =>
        NewCandidateUnknown(s, Candidate(x, note));
        BuildKeepsOk(head, pending, x, note, failed);
      case ReadControlAgain(_, reply) => RecheckKeepsOk(head, pending, x, reply);
      case ObserveHead(_, mode, reachable) => ObserveKeepsOk(head, pending, x, Read(mode, head), reachable);
      case VerifyHead(_, mode) => VerifyHeadKeepsOk(head, pending, x, Read(mode, head));
      case VerifyObjects(_, commitMode, fileMode) =>
        var c, path := x.phase.candidate, PathOf(x.msg.messageId);
        VerifyKeepsOk(head, pending, x, Read(commitMode, c), if path in c.tree then Read(fileMode, c.tree[path]) else Returns(None));
      case ReadFinalControl(_, raises) => ReceiptKeepsOk(head, pending, x, raises);
    }
  }

  lemma NewCandidateUnknown(s: Lane, c: Commit)
    requires PendingOk(s) && !IsCandidate(s, c)
    ensures c !in s.pending
  {
  }

  lemma NoCandidateBeforeBuild(s: Lane, e: Event)
    requires Legal(s, e) && BeforeBuild(e)
    ensures CandidateOf(PhaseOf(s, e.a)).None? && CandidateOf(NextPhase(s, e)).None?
  {
    hide AfterControl;
    hide AfterHead;
    hide AfterHistory;
    hide AfterPath;
    hide AfterExisting;
    hide AfterExistingControl;
    hide TrueHistory;
    hide IsCandidate;
    hide Ancestor;
  }

  lemma CandidateKeptAfterBuild(s: Lane, e: Event)
    requires Legal(s, e) && IsCall(e) && !BeforeBuild(e) && !e.BuildObjects?
    ensures CandidateOf(NextPhase(s, e)) == CandidateOf(PhaseOf(s, e.a)) && CandidateOf(PhaseOf(s, e.a)).Some?
  {
    hide AfterRecheck;
    hide AfterObserve;
    hide AfterVerifyHead;
    hide AfterVerifyObjects;
    hide AfterFinalControl;
    hide TrueHistory;
    hide IsCandidate;
    hide Ancestor;
  }

  lemma CallKeepsCandidate(s: Lane, e: Event)
    requires IsCall(e) && Legal(s, e)
    ensures CandidateKept(s, PhaseOf(s, e.a), NextPhase(s, e))
  {
    if BeforeBuild(e) {
      NoCandidateBeforeBuild(s, e);
    } else if !e.BuildObjects? {
      CandidateKeptAfterBuild(s, e);
    }
    hide TrueHistory;
    hide IsCandidate;
    hide Ancestor;
    if !e.BuildObjects? { hide NextPhase; }
  }

  lemma CallKeepsInv(s: Lane, e: Event)
    requires IsCall(e) && Legal(s, e) && Inv(s)
    ensures Inv(SetPhase(s, e.a, NextPhase(s, e)))
  {
    hide SessionOk;
    hide NextPhase;
    hide CandidateKept;
    if BeforeBuild(e) { CallBeforeBuildKeepsOk(s, e); } else { CallFromBuildKeepsOk(s, e); }
    CallKeepsCandidate(s, e);
    ChangeKeepsInv(s, SetPhase(s, e.a, NextPhase(s, e)), e.a);
  }

  lemma BeginKeepsInv(s: Lane, a: nat, x: Session)
    requires Inv(s) && a !in s.sessions
    requires CandidateOf(x.phase).None? && SessionOk(s.head, s.pending.Keys, x)
    ensures Inv(s.(sessions := s.sessions[a := x]))
  {
    var t := s.(sessions := s.sessions[a := x]);
    BeginKeepsPending(s, a, x);
    assert SessionsOk(t);
    assert OwnCandidates(t);
  }

  lemma BeginKeepsPending(s: Lane, a: nat, x: Session)
    requires PendingOk(s) && a !in s.sessions
    ensures PendingOk(s.(sessions := s.sessions[a := x]))
  {
  }

  // ---- The branch moves ----

  // The same appends; the branch grew, and with it nothing that any append still counts on being absent.
  ghost predicate BranchGrows(s: Lane, t: Lane) {
    && t.sessions == s.sessions
    && forall a :: a in s.sessions ==> Grown(s.head, s.pending.Keys, t.head, t.pending.Keys, CandidateOf(PhaseOf(s, a)))
  }

  lemma GrowthKeepsSessionsOk(s: Lane, t: Lane)
    requires SessionsOk(s) && BranchGrows(s, t)
    ensures SessionsOk(t)
  {
    forall a | a in t.sessions
      ensures SessionOk(t.head, t.pending.Keys, t.sessions[a])
    {
      hide SessionOk;
      SessionKept(s.head, s.pending.Keys, t.head, t.pending.Keys, s.sessions[a]);
    }
  }

  lemma PreparedKept(head: Commit, head': Commit, x: Session)
    requires Prepared(head, x) && Ancestor(head, head')
    ensures Prepared(head', x)
  {
    var seen :| Preflight(head, x, seen);
    AncestorTransitive(seen, head, head');
    assert Preflight(head', x, seen);
  }

  lemma PreparedOf(head: Commit, pending: set<Commit>, x: Session)
    requires SessionOk(head, pending, x) && x.phase.AtUpdate?
    ensures Prepared(head, x) && Made(x, x.phase.candidate) && !Ancestor(x.phase.candidate, head)
  {
    assert Preflight(head, x, x.phase.seen);
  }

  lemma CandidateMade(head: Commit, pending: set<Commit>, x: Session)
    requires SessionOk(head, pending, x) && CandidateOf(x.phase).Some?
    ensures Made(x, CandidateOf(x.phase).value) && Ancestor(x.expected, head)
  {
    if x.phase.AtRecheck? || x.phase.AtUpdate? || x.phase.AtObserve? {
      PreflightHead(head, x, x.phase.seen);
    }
  }

  // A candidate lands only on its expected head, which is still the head the history was read at.
  lemma LandsOnSeenHead(head: Commit, x: Session, c: Commit)
    requires Prepared(head, x) && Made(x, c) && !Ancestor(c, head) && Ancestor(head, c)
    ensures head == x.expected && Preflight(head, x, head)
  {
    var seen :| Preflight(head, x, seen);
    PreflightHead(head, x, seen);
    MovedOn(head, x, c);
    AncestorAntisymmetric(seen, head);
  }

  // Landing a child of the head adds that one commit to the branch.
  lemma LandingGrows(s: Lane, t: Lane, a: nat, c: Commit)
    requires OwnCandidates(s) && a in s.sessions && c.parents == [s.head] && CandidateOf(PhaseOf(s, a)) == Some(c)
    requires t.head == c && t.pending.Keys <= s.pending.Keys
    ensures forall b :: b in s.sessions && b != a ==> Grown(s.head, s.pending.Keys, t.head, t.pending.Keys, CandidateOf(PhaseOf(s, b)))
    ensures Ancestor(s.head, c)
  {
    ChildAncestors(s.head, c, s.head);
    forall b | b in s.sessions && b != a && CandidateOf(PhaseOf(s, b)).Some?
      ensures Grown(s.head, s.pending.Keys, t.head, t.pending.Keys, CandidateOf(PhaseOf(s, b)))
    {
      ChildAncestors(CandidateOf(PhaseOf(s, b)).value, c, s.head);
    }
  }

  lemma PathOfIsMessagePath(id: string)
    ensures IsMessagePath(PathOf(id))
  {
    var path := PathOf(id);
    assert path[..|"messages/"|] == "messages/";
    assert path[|path| - |".md"|..] == ".md";
  }

  // A published candidate is a message on the branch, with its append's id.
  lemma PublishedCarries(head: Commit, x: Session, c: Commit)
    requires Made(x, c) && Ancestor(c, head)
    ensures Carries(head, c, PathOf(x.msg.messageId)) && c.tree[PathOf(x.msg.messageId)] == x.text
  {
    hide ParseMessage;
    PathOfIsMessagePath(x.msg.messageId);
  }

  lemma FreshIsNew(head: Commit, id: string, x: Session, c: Commit)
    requires Fresh(head, id) && Made(x, c) && Ancestor(c, head)
    ensures x.msg.messageId != id
  {
    PublishedCarries(head, x, c);
  }

  // Append a's candidate lands: t has it as head, and sessions whose candidates are those of s.
  ghost predicate Lands(s: Lane, t: Lane, a: nat, c: Commit) {
    && a in s.sessions && CandidateOf(PhaseOf(s, a)) == Some(c) && c.parents == [s.head]
    && t.head == c && t.pending == s.pending - {c}
    && t.sessions.Keys == s.sessions.Keys
    && (forall b :: b in s.sessions && b != a ==> t.sessions[b] == s.sessions[b])
    && t.sessions[a] == s.sessions[a].(phase := PhaseOf(t, a))
    && CandidateOf(PhaseOf(t, a)) == Some(c)
  }

  lemma LandingKeepsSessionsOk(s: Lane, t: Lane, a: nat, c: Commit)
    requires SessionsOk(s) && OwnCandidates(s) && Lands(s, t, a, c)
    requires SessionOk(t.head, t.pending.Keys, t.sessions[a])
    ensures SessionsOk(t)
  {
    LandingGrows(s, t, a, c);
    forall b | b in t.sessions
      ensures SessionOk(t.head, t.pending.Keys, t.sessions[b])
    {
      hide SessionOk;
      if b != a { SessionKept(s.head, s.pending.Keys, t.head, t.pending.Keys, s.sessions[b]); }
    }
  }

  lemma LandingKeepsPending(s: Lane, t: Lane, a: nat, c: Commit, d: Commit)
    requires PendingOk(s) && Lands(s, t, a, c) && d in t.pending
    ensures t.pending[d] in t.sessions && CandidateOf(PhaseOf(t, t.pending[d])) == Some(d)
    ensures !Ancestor(d, t.head) && Prepared(t.head, t.sessions[t.pending[d]])
  {
    ChildAncestors(s.head, c, s.head);
    ChildAncestors(d, c, s.head);
    assert Ancestor(s.head, t.head);
    hide Prepared;
    hide Ancestor;
    PreparedAgain(s.head, s.sessions[s.pending[d]], t.sessions[s.pending[d]]);
    PreparedKept(s.head, t.head, t.sessions[s.pending[d]]);
  }

  lemma LandingKeepsPendingOk(s: Lane, t: Lane, a: nat, c: Commit)
    requires PendingOk(s) && Lands(s, t, a, c)
    ensures PendingOk(t)
  {
    forall d | d in t.pending
      ensures t.pending[d] in t.sessions && CandidateOf(PhaseOf(t, t.pending[d])) == Some(d)
      ensures !Ancestor(d, t.head) && Prepared(t.head, t.sessions[t.pending[d]])
    {
      hide *;
      LandingKeepsPending(s, t, a, c, d);
    }
  }

  lemma LandingKeepsOnceEach(s: Lane, t: Lane, a: nat, c: Commit)
    requires OnceEach(s) && SessionsOk(s) && OwnCandidates(s) && Lands(s, t, a, c)
    requires Fresh(s.head, s.sessions[a].msg.messageId)
    ensures OnceEach(t)
  {
    forall b | b in s.sessions && b != a && Published(t, b)
      ensures Published(s, b) && s.sessions[b].msg.messageId != s.sessions[a].msg.messageId
    {
      var d := CandidateOf(PhaseOf(s, b)).value;
      ChildAncestors(d, c, s.head);
      CandidateMade(s.head, s.pending.Keys, s.sessions[b]);
      FreshIsNew(s.head, s.sessions[a].msg.messageId, s.sessions[b], d);
    }
  }

  lemma LandingKeepsInv(s: Lane, t: Lane, a: nat, c: Commit)
    requires Inv(s) && Lands(s, t, a, c) && Fresh(s.head, s.sessions[a].msg.messageId)
    requires SessionOk(t.head, t.pending.Keys, t.sessions[a])
    ensures Inv(t)
  {
    LandingKeepsSessionsOk(s, t, a, c);
    LandingKeepsPendingOk(s, t, a, c);
    LandingKeepsOnceEach(s, t, a, c);
    assert OwnCandidates(t);
  }

  predicate LandsNow(reply: UpdateReply) {
    reply == Accepted || reply == RaisedLanded
  }

  // The update moves the branch: the head was the expected head, and the append goes on to read it back.
  lemma UpdateLands(head: Commit, pending: set<Commit>, x: Session, reply: UpdateReply)
    requires SessionOk(head, pending, x) && x.phase.AtUpdate? && LandsNow(reply) && Ancestor(head, x.phase.candidate)
    ensures head == x.expected && x.phase.candidate.parents == [head]
    ensures Fresh(head, x.msg.messageId)
    ensures var c := x.phase.candidate; SessionOk(c, pending - {c}, x.(phase := AfterUpdate(x.phase.seen, c, reply)))
  {
    hide ParseMessage;
    hide Fresh;
    hide Tidy;
    hide Chained;
    hide Follows;
    PreparedOf(head, pending, x);
    LandsOnSeenHead(head, x, x.phase.candidate);
    ChildAncestors(head, x.phase.candidate, head);
    AncestorTransitive(x.phase.seen, head, x.phase.candidate);
  }

  // The update leaves the branch alone for now.
  lemma UpdateWaits(head: Commit, pending: set<Commit>, x: Session, reply: UpdateReply)
    requires SessionOk(head, pending, x) && x.phase.AtUpdate? && !LandsNow(reply)
    ensures SessionOk(head, pending, x.(phase := AfterUpdate(x.phase.seen, x.phase.candidate, reply)))
  {
    hide ParseMessage;
    hide Fresh;
    hide Tidy;
    hide Chained;
    hide Follows;
  }

  lemma InvSession(s: Lane, a: nat)
    requires Inv(s) && a in s.sessions
    ensures SessionOk(s.head, s.pending.Keys, s.sessions[a])
  {
  }

  lemma InvPending(s: Lane, c: Commit)
    requires Inv(s) && c in s.pending
    ensures s.pending[c] in s.sessions && CandidateOf(PhaseOf(s, s.pending[c])) == Some(c)
    ensures !Ancestor(c, s.head) && Prepared(s.head, s.sessions[s.pending[c]])
  {
  }

  lemma UpdateLandsKeepsInv(s: Lane, a: nat, reply: UpdateReply)
    requires Inv(s) && Legal(s, UpdateRef(a, reply)) && LandsNow(reply)
    ensures Inv(Updated(s, a, reply))
    ensures s.head == s.sessions[a].expected && Fresh(s.head, s.sessions[a].msg.messageId)
  {
    hide Inv;
    hide SessionOk;
    hide Fresh;
    hide Ancestor;
    var t := Updated(s, a, reply);
    var c := PhaseOf(s, a).candidate;
    InvSession(s, a);
    UpdateLands(s.head, s.pending.Keys, s.sessions[a], reply);
    UpdatedNotPending(s, a);
    assert t.pending == s.pending - {c};
    assert t.pending.Keys == s.pending.Keys - {c};
    LandingKeepsInv(s, t, a, c);
  }

  lemma UpdatedNotPending(s: Lane, a: nat)
    requires Inv(s) && a in s.sessions && PhaseOf(s, a).AtUpdate?
    ensures PhaseOf(s, a).candidate !in s.pending
  {
    InvSession(s, a);
  }

  lemma UpdateWaitsKeepsInv(s: Lane, a: nat, reply: UpdateReply)
    requires Inv(s) && Legal(s, UpdateRef(a, reply)) && !LandsNow(reply)
    ensures Inv(Updated(s, a, reply))
  {
    hide Inv;
    hide SessionOk;
    hide Ancestor;
    hide Prepared;
    var AtUpdate(seen, c) := PhaseOf(s, a);
    InvSession(s, a);
    PreparedOf(s.head, s.pending.Keys, s.sessions[a]);
    UpdateWaits(s.head, s.pending.Keys, s.sessions[a], reply);
    var u := SetPhase(s, a, AfterUpdate(seen, c, reply));
    ChangeKeepsInv(s, u, a);
    if reply == RaisedPending {
      PreparedAgain(s.head, s.sessions[a], u.sessions[a]);
      PendingAdded(u, a, c);
    }
  }

  lemma RaisedAddsPending(head: Commit, pending: set<Commit>, x: Session, c: Commit)
    requires SessionOk(head, pending, x) && x.phase.AtObserve? && x.phase.raised
    ensures SessionOk(head, pending + {c}, x)
  {
  }

  lemma PendingAddedSession(s: Lane, a: nat, c: Commit, b: nat)
    requires Inv(s) && a in s.sessions && PhaseOf(s, a).AtObserve? && PhaseOf(s, a).raised && PhaseOf(s, a).candidate == c
    requires b in s.sessions
    ensures SessionOk(s.head, s.pending.Keys + {c}, s.sessions[b])
  {
    hide SessionOk;
    InvSession(s, b);
    if b == a {
      RaisedAddsPending(s.head, s.pending.Keys, s.sessions[a], c);
    } else {
      SessionKept(s.head, s.pending.Keys, s.head, s.pending.Keys + {c}, s.sessions[b]);
    }
  }

  lemma PendingAdded(s: Lane, a: nat, c: Commit)
    requires Inv(s) && a in s.sessions && PhaseOf(s, a).AtObserve? && PhaseOf(s, a).raised && PhaseOf(s, a).candidate == c
    requires !Ancestor(c, s.head) && Prepared(s.head, s.sessions[a])
    ensures Inv(s.(pending := s.pending[c := a]))
  {
    hide SessionOk;
    hide Ancestor;
    hide Prepared;
    var t := s.(pending := s.pending[c := a]);
    assert t.pending.Keys == s.pending.Keys + {c};
    forall b | b in t.sessions
      ensures SessionOk(t.head, t.pending.Keys, t.sessions[b])
    {
      PendingAddedSession(s, a, c, b);
    }
    assert PendingOk(t);
    assert OnceEach(t) by { hide PendingOk; hide SessionsOk; hide OwnCandidates; }
  }

  // ---- Late landings, and everybody else ----

  // The late update finds the expected head, which is still the head the history was read at.
  lemma LateLands(s: Lane, c: Commit)
    requires Inv(s) && c in s.pending && Ancestor(s.head, c)
    ensures s.pending[c] in s.sessions && CandidateOf(PhaseOf(s, s.pending[c])) == Some(c)
    ensures var x := s.sessions[s.pending[c]]; Made(x, c) && s.head == x.expected && Preflight(s.head, x, s.head)
    ensures c.parents == [s.head]
  {
    hide Inv;
    hide SessionOk;
    hide Ancestor;
    InvPending(s, c);
    InvSession(s, s.pending[c]);
    CandidateMade(s.head, s.pending.Keys, s.sessions[s.pending[c]]);
    LandsOnSeenHead(s.head, s.sessions[s.pending[c]], c);
  }

  lemma LateKeepsInv(s: Lane, c: Commit)
    requires Inv(s) && c in s.pending && Ancestor(s.head, c)
    ensures Inv(s.(head := c, pending := s.pending - {c}))
  {
    hide Inv;
    hide SessionOk;
    hide Fresh;
    hide Tidy;
    hide Chained;
    hide Follows;
    hide ParseMessage;
    hide Made;
    hide Ancestor;
    var a, t := s.pending[c], s.(head := c, pending := s.pending - {c});
    LateLands(s, c);
    InvSession(s, a);
    assert t.pending.Keys == s.pending.Keys - {c};
    SessionKept(s.head, s.pending.Keys, t.head, t.pending.Keys, s.sessions[a]);
    LandingKeepsInv(s, t, a, c);
  }

  lemma GrowthKeepsInv(s: Lane, t: Lane)
    requires Inv(s) && BranchGrows(s, t)
    requires forall c :: c in t.pending ==> c in s.pending && t.pending[c] == s.pending[c] && !Ancestor(c, t.head)
    requires Ancestor(s.head, t.head)
    requires forall a :: a in s.sessions && Published(t, a) ==> Published(s, a)
    ensures Inv(t)
  {
    hide SessionsOk;
    hide PendingOk;
    hide Ancestor;
    GrowthKeepsSessionsOk(s, t);
    GrowthKeepsPendingOk(s, t);
  }

  lemma GrowthKeepsPendingOk(s: Lane, t: Lane)
    requires PendingOk(s) && t.sessions == s.sessions
    requires forall c :: c in t.pending ==> c in s.pending && t.pending[c] == s.pending[c] && !Ancestor(c, t.head)
    requires Ancestor(s.head, t.head)
    ensures PendingOk(t)
  {
    hide Ancestor;
    hide Prepared;
    forall c | c in t.pending
      ensures CandidateOf(PhaseOf(t, t.pending[c])) == Some(c) && Prepared(t.head, t.sessions[t.pending[c]])
    {
      PreparedKept(s.head, t.head, s.sessions[s.pending[c]]);
    }
  }

  lemma LossKeepsInv(s: Lane, c: Commit)
    requires Inv(s)
    ensures Inv(s.(pending := s.pending - {c}))
  {
    hide SessionsOk;
    assert Ancestor(s.head, s.head);
    GrowthKeepsInv(s, s.(pending := s.pending - {c}));
  }

  lemma AdvanceKeepsInv(s: Lane, commit: Commit)
    requires Inv(s) && Legal(s, Advance(commit))
    ensures Inv(s.(head := commit))
  {
    hide SessionsOk;
    hide Ancestor;
    var t := s.(head := commit);
    forall a | a in s.sessions && CandidateOf(PhaseOf(s, a)).Some?
      ensures Ancestor(CandidateOf(PhaseOf(s, a)).value, commit) ==> Ancestor(CandidateOf(PhaseOf(s, a)).value, s.head)
    {
      assert IsCandidate(s, CandidateOf(PhaseOf(s, a)).value);
    }
    GrowthKeepsInv(s, t);
  }

  lemma BeginIsOk(head: Commit, pending: set<Commit>, identity: string, expected: Commit, text: string)
    ensures SessionOk(head, pending, Begin(identity, expected, text)) && CandidateOf(Begin(identity, expected, text).phase).None?
  {
  }

  lemma NextKeepsInv(s: Lane, e: Event)
    requires Inv(s) && Legal(s, e)
    ensures Inv(Next(s, e))
  {
    hide Inv;
    hide SessionOk;
    hide NextPhase;
    hide Ancestor;
    match e {
      case BeginAppend(a, identity, expected, text) =>
        BeginIsOk(s.head, s.pending.Keys, identity, expected, text);
        BeginKeepsInv(s, a, Begin(identity, expected, text));
      case UpdateRef(a, reply) =>
        if LandsNow(reply) { UpdateLandsKeepsInv(s, a, reply); } else { UpdateWaitsKeepsInv(s, a, reply); }
      case LandLate(c) => LateKeepsInv(s, c);
      case LoseLate(c) => LossKeepsInv(s, c);
      case Advance(commit) => AdvanceKeepsInv(s, commit);
      case _ => CallKeepsInv(s, e);
    }
  }

  lemma {:induction false} RunKeepsInv(s: Lane, events: seq<Event>)
    requires Inv(s) && LegalRun(s, events)
    ensures Inv(Run(s, events))
    decreases |events|
  {
    if events != [] {
      NextKeepsInv(s, events[0]);
      RunKeepsInv(Next(s, events[0]), events[1..]);
    }
  }

  // ---- Main results ----

  predicate Start(s: Lane) {
    s.sessions == map[] && s.pending == map[]
  }

  lemma StartInv(s: Lane)
    requires Start(s)
    ensures Inv(s)
  {
  }

  lemma FinishedStays(s: Lane, e: Event, a: nat)
    requires Legal(s, e) && a in s.sessions && PhaseOf(s, a).Finished?
    ensures a in Next(s, e).sessions && Next(s, e).sessions[a] == s.sessions[a]
  {
    hide NextPhase;
    hide TrueHistory;
    hide Ancestor;
    hide ParseMessage;
  }

  lemma {:induction false} FinishedForGood(s: Lane, events: seq<Event>, a: nat)
    requires LegalRun(s, events) && a in s.sessions && PhaseOf(s, a).Finished?
    ensures a in Run(s, events).sessions && Run(s, events).sessions[a] == s.sessions[a]
    decreases |events|
  {
    hide Legal;
    hide Next;
    if events != [] {
      FinishedStays(s, events[0], a);
      FinishedForGood(Next(s, events[0]), events[1..], a);
    }
  }

  /** Whatever the schedule before and after: what an append reported is true when it is reported and in every
      later state. NONE_ESTABLISHED says that the candidate is not on the branch, PRESENT that it is. */
  lemma OutcomeTrueForever(s: Lane, before: seq<Event>, after: seq<Event>, a: nat)
    requires Start(s) && LegalRun(s, before) && LegalRun(Run(s, before), after)
    requires a in Run(s, before).sessions && PhaseOf(Run(s, before), a).Finished?
    ensures var x, t := Run(s, before).sessions[a], Run(Run(s, before), after);
            OutcomeTrue(t.head, t.pending.Keys, x, x.phase.outcome, x.phase.made)
  {
    hide Inv;
    hide OutcomeTrue;
    var u := Run(s, before);
    var t := Run(u, after);
    StartInv(s);
    RunKeepsInv(s, before);
    RunKeepsInv(u, after);
    FinishedForGood(u, after, a);
    InvSession(t, a);
  }

  lemma NoneEstablishedNeverLands(s: Lane, before: seq<Event>, after: seq<Event>, a: nat, code: string, c: Commit)
    requires Start(s) && LegalRun(s, before) && LegalRun(Run(s, before), after)
    requires a in Run(s, before).sessions && PhaseOf(Run(s, before), a) == End(code, NoneEstablished, c)
    ensures !Ancestor(c, Run(Run(s, before), after).head)
  {
    OutcomeTrueForever(s, before, after, a);
  }

  // Two appends of one message id never both reach the branch: a retry leaves no second commit.
  lemma RetryLandsOnce(s: Lane, events: seq<Event>, a: nat, b: nat)
    requires Start(s) && LegalRun(s, events) && a != b
    requires var t := Run(s, events);
             && a in t.sessions && b in t.sessions && t.sessions[a].msg.messageId == t.sessions[b].msg.messageId
             && CandidateOf(PhaseOf(t, a)).Some? && CandidateOf(PhaseOf(t, b)).Some?
    ensures var t := Run(s, events);
            !(Ancestor(CandidateOf(PhaseOf(t, a)).value, t.head) && Ancestor(CandidateOf(PhaseOf(t, b)).value, t.head))
  {
    StartInv(s);
    RunKeepsInv(s, events);
    NotBothPublished(Run(s, events), a, b);
  }

  lemma NotBothPublished(t: Lane, a: nat, b: nat)
    requires OnceEach(t) && a != b && a in t.sessions && b in t.sessions
    requires t.sessions[a].msg.messageId == t.sessions[b].msg.messageId
    ensures !(Published(t, a) && Published(t, b))
  {
  }

  // ---- The append takes effect at the ref update, on the head it started from ----

  // Append a's candidate becomes the head by this event.
  ghost predicate LandsBy(s: Lane, e: Event, a: nat) {
    match e
    case UpdateRef(b, reply) => b == a && LandsNow(reply)
    case LandLate(c) => c in s.pending && s.pending[c] == a
    case _ => false
  }

  // The append read head o: it has not gone further than the history, or o is the head it expected.
  predicate ReadBefore(x: Session, o: Commit) {
    match x.phase
    case AtControl => false
    case AtHead(_) => false
    case AtHistory(_, observed) => observed == o
    case AtPath(_, _) => x.expected == o
    case AtBuild(_, _) => x.expected == o
    case AtExisting(_) => true
    case AtExistingControl(_, _) => true
    case _ => CandidateOf(x.phase).Some? ==> x.expected == o
  }

  lemma LateReadBefore(s: Lane, e: Event, o: Commit)
    requires Legal(s, e) && IsCall(e) && !BeforeBuild(e) && !e.BuildObjects? && ReadBefore(s.sessions[e.a], o)
    ensures ReadBefore(s.sessions[e.a].(phase := NextPhase(s, e)), o)
  {
    CandidateKeptAfterBuild(s, e);
    hide NextPhase;
    hide Legal;
  }

  lemma CallKeepsReadBefore(s: Lane, e: Event, o: Commit)
    requires IsCall(e) && Legal(s, e) && ReadBefore(s.sessions[e.a], o)
    ensures ReadBefore(s.sessions[e.a].(phase := NextPhase(s, e)), o)
  {
    hide AfterRecheck;
    hide AfterObserve;
    hide AfterVerifyHead;
    hide AfterVerifyObjects;
    hide AfterFinalControl;
    hide WithId;
    hide PredecessorError;
    hide ParseMessage;
    hide TrueHistory;
    hide Ancestor;
    hide IsCandidate;
    if !BeforeBuild(e) && !e.BuildObjects? { LateReadBefore(s, e, o); }
  }

  lemma ReadBeforeKept(s: Lane, e: Event, a: nat, o: Commit)
    requires Legal(s, e) && a in s.sessions && ReadBefore(s.sessions[a], o)
    ensures a in Next(s, e).sessions && ReadBefore(Next(s, e).sessions[a], o)
    ensures Next(s, e).sessions[a].expected == s.sessions[a].expected
  {
    hide NextPhase;
    hide TrueHistory;
    hide Ancestor;
    hide IsCandidate;
    hide Begin;
    if IsCall(e) && e.a == a { CallKeepsReadBefore(s, e, o); }
  }

  lemma HeadGrows(s: Lane, e: Event)
    requires Legal(s, e)
    ensures Ancestor(s.head, Next(s, e).head)
  {
    hide NextPhase;
    hide TrueHistory;
    hide ParseMessage;
  }

  lemma {:induction false} RunGrows(s: Lane, events: seq<Event>, k: nat)
    requires LegalRun(s, events) && k <= |events|
    ensures LegalRun(s, events[..k]) && Ancestor(s.head, Run(s, events[..k]).head)
    ensures Ancestor(Run(s, events[..k]).head, Run(s, events).head)
    decreases |events|
  {
    hide Legal;
    hide Next;
    if events == [] {
      assert events[..k] == [];
    } else {
      var n := Next(s, events[0]);
      HeadGrows(s, events[0]);
      if k > 0 {
        assert events[..k][1..] == events[1..][..k - 1];
        RunGrows(n, events[1..], k - 1);
        AncestorTransitive(s.head, n.head, Run(n, events[1..][..k - 1]).head);
      } else {
        assert events[..k] == [];
        RunGrows(n, events[1..], 0);
        AncestorTransitive(s.head, n.head, Run(n, events[1..]).head);
      }
    }
  }

  lemma {:induction false} ReadBeforeAlong(s: Lane, events: seq<Event>, a: nat, o: Commit)
    requires LegalRun(s, events) && a in s.sessions && ReadBefore(s.sessions[a], o)
    ensures a in Run(s, events).sessions && ReadBefore(Run(s, events).sessions[a], o)
    ensures Run(s, events).sessions[a].expected == s.sessions[a].expected
    decreases |events|
  {
    hide Legal;
    hide Next;
    hide ReadBefore;
    if events != [] {
      ReadBeforeKept(s, events[0], a, o);
      ReadBeforeAlong(Next(s, events[0]), events[1..], a, o);
    }
  }

  // A landing finds the expected head, and no message with this id on the branch.
  lemma LandingOnExpected(s: Lane, e: Event, a: nat)
    requires Inv(s) && Legal(s, e) && LandsBy(s, e, a)
    ensures a in s.sessions && CandidateOf(PhaseOf(s, a)).Some?
    ensures s.head == s.sessions[a].expected && Fresh(s.head, s.sessions[a].msg.messageId)
    ensures Made(s.sessions[a], Next(s, e).head)
    ensures Tidy(s.head) && Chained(Messages(s.head)) ==> Follows(Messages(s.head), s.sessions[a].msg)
  {
    hide Inv;
    hide SessionOk;
    hide Ancestor;
    match e {
      case UpdateRef(_, reply) =>
        InvSession(s, a);
        PreparedOf(s.head, s.pending.Keys, s.sessions[a]);
        LandsOnSeenHead(s.head, s.sessions[a], PhaseOf(s, a).candidate);
      case LandLate(c) => LateLands(s, c);
    }
  }

  lemma JustReadHead(s: Lane, a: nat)
    requires Legal(s, ReadHead(a, ReadTrue))
    ensures var u := Next(s, ReadHead(a, ReadTrue));
            && u.head == s.head && a in u.sessions && ReadBefore(u.sessions[a], s.head)
            && u.sessions[a].expected == s.sessions[a].expected
  {
  }

  lemma ExpectedWasRead(x: Session, o: Commit)
    requires ReadBefore(x, o) && CandidateOf(x.phase).Some?
    ensures x.expected == o
  {
  }

  /** From the read of the head to the landing of its commit, through everything that others did in between,
      the head was the expected head of the append. */
  lemma HeadStoodStill(s: Lane, a: nat, events: seq<Event>, e: Event, k: nat)
    requires Inv(s) && Legal(s, ReadHead(a, ReadTrue))
    requires var u := Next(s, ReadHead(a, ReadTrue));
             LegalRun(u, events) && Legal(Run(u, events), e) && LandsBy(Run(u, events), e, a)
    requires k <= |events|
    ensures s.head == s.sessions[a].expected
    ensures var u := Next(s, ReadHead(a, ReadTrue));
            LegalRun(u, events[..k]) && Run(u, events[..k]).head == s.sessions[a].expected
  {
    hide Inv;
    hide Next;
    hide Legal;
    hide LandsBy;
    hide ReadBefore;
    hide Made;
    hide Fresh;
    hide Tidy;
    hide Chained;
    var u := Next(s, ReadHead(a, ReadTrue));
    NextKeepsInv(s, ReadHead(a, ReadTrue));
    JustReadHead(s, a);
    RunKeepsInv(u, events);
    ReadBeforeAlong(u, events, a, s.head);
    LandingOnExpected(Run(u, events), e, a);
    ExpectedWasRead(Run(u, events).sessions[a], s.head);
    RunGrows(u, events, k);
    AncestorAntisymmetric(Run(u, events[..k]).head, s.head);
  }

  // ---- The messages of the branch form one chain ----

  // Every message that the commit brings in goes on with the chain of its parent: its id is new there, and it names
  // the last message.
  ghost predicate GoesOn(c: Commit)
    requires c.parents != []
  {
    forall p :: Introduces(c, p) && IsMessagePath(p) ==>
                  ParseMessage(c.tree[p]).Ok? && Follows(Messages(c.parents[0]), ParseMessage(c.tree[p]).value)
  }

  // Commits lead from one head to the other, none of them a merge, each with at most one message, which goes on with
  // the chain.
  ghost predicate PushGoesOn(base: Commit, tip: Commit) {
    base == tip || (|tip.parents| == 1 && OneMessage(tip) && GoesOn(tip) && PushGoesOn(base, tip.parents[0]))
  }

  // Others may push messages of their own, but each must go on with the chain, and no merges.
  ghost predicate Orderly(s: Lane, e: Event) {
    e.Advance? ==> PushGoesOn(s.head, e.commit)
  }

  lemma CommitKeepsChain(c: Commit)
    requires |c.parents| == 1 && OneMessage(c) && GoesOn(c) && Chained(Messages(c.parents[0]))
    ensures Chained(Messages(c)) && Prefix(Messages(c.parents[0]), Messages(c))
  {
    hide Chained;
    hide Follows;
    hide ParseMessage;
    if BringsMessage(c) {
      var p :| p in c.tree && Introduces(c, p) && IsMessagePath(p) && Own(c) == [c.tree[p]];
      ChainExtends(Messages(c.parents[0]), c.tree[p], ParseMessage(c.tree[p]).value);
    } else {
      assert Messages(c) == Messages(c.parents[0]);
    }
  }

  lemma {:induction false} PushKeepsChain(base: Commit, tip: Commit)
    requires PushGoesOn(base, tip) && Tidy(base) && Chained(Messages(base))
    ensures Tidy(tip) && Chained(Messages(tip)) && Prefix(Messages(base), Messages(tip))
    decreases tip
  {
    hide Chained;
    hide Messages;
    hide OneMessage;
    hide GoesOn;
    if base != tip {
      PushKeepsChain(base, tip.parents[0]);
      CommitKeepsChain(tip);
      PrefixTransitive(Messages(base), Messages(tip.parents[0]), Messages(tip));
    }
  }

  lemma PrefixTransitive(a: seq<string>, b: seq<string>, c: seq<string>)
    requires Prefix(a, b) && Prefix(b, c)
    ensures Prefix(a, c)
  {
    assert c[..|a|] == c[..|b|][..|a|];
  }

  lemma AppendIntroduces(x: Session, c: Commit)
    requires Made(x, c)
    ensures forall p :: Introduces(c, p) <==> p == PathOf(x.msg.messageId)
    ensures BringsMessage(c) && Own(c) == [x.text]
  {
    hide ParseMessage;
    PathOfIsMessagePath(x.msg.messageId);
    assert Introduces(c, PathOf(x.msg.messageId));
  }

  lemma AppendExtendsMessages(x: Session, c: Commit)
    requires Made(x, c) && Tidy(x.expected)
    ensures Tidy(c) && Messages(c) == Messages(x.expected) + [x.text]
  {
    AppendIntroduces(x, c);
  }

  lemma ChainExtends(log: seq<string>, text: string, msg: Parsed)
    requires Chained(log) && ParseMessage(text) == Ok(msg) && Follows(log, msg)
    ensures Chained(log + [text])
  {
    hide ParseMessage;
    var longer := log + [text];
    forall i | 0 <= i < |longer|
      ensures Linked(longer, i)
    {
      if i < |log| { assert Linked(log, i); }
    }
  }

  predicate Prefix(a: seq<string>, b: seq<string>) {
    |a| <= |b| && b[..|a|] == a
  }

  lemma ChainStep(s: Lane, e: Event)
    requires Inv(s) && Legal(s, e) && Orderly(s, e) && Tidy(s.head) && Chained(Messages(s.head))
    ensures Tidy(Next(s, e).head) && Chained(Messages(Next(s, e).head)) && Prefix(Messages(s.head), Messages(Next(s, e).head))
  {
    hide Inv;
    hide Chained;
    hide Tidy;
    hide Messages;
    hide NextPhase;
    hide TrueHistory;
    hide ParseMessage;
    hide Ancestor;
    if e.Advance? {
      PushKeepsChain(s.head, e.commit);
    } else if e.LandLate? || (e.UpdateRef? && LandsNow(e.reply)) {
      var a := if e.LandLate? then s.pending[e.candidate] else e.a;
      LandingOnExpected(s, e, a);
      AppendExtendsMessages(s.sessions[a], Next(s, e).head);
      ChainExtends(Messages(s.head), s.sessions[a].text, s.sessions[a].msg);
    }
  }

  ghost predicate OrderlyRun(s: Lane, events: seq<Event>)
    decreases |events|
  {
    events == [] || (Legal(s, events[0]) && Orderly(s, events[0]) && OrderlyRun(Next(s, events[0]), events[1..]))
  }

  /** Any number of appends at once, on a branch to which others push no merges and only messages that go on with the
      chain: the messages keep unique ids, each names the one before it in commit order, and the log only ever grows
      at its end. */
  lemma {:induction false} LaneStaysAChain(s: Lane, events: seq<Event>)
    requires Inv(s) && OrderlyRun(s, events) && Tidy(s.head) && Chained(Messages(s.head))
    ensures LegalRun(s, events)
    ensures var head := Run(s, events).head; Tidy(head) && Chained(Messages(head)) && Prefix(Messages(s.head), Messages(head))
    decreases |events|
  {
    hide Inv;
    hide Chained;
    hide Tidy;
    hide Messages;
    hide Legal;
    hide Next;
    hide Orderly;
    if events != [] {
      NextKeepsInv(s, events[0]);
      ChainStep(s, events[0]);
      LaneStaysAChain(Next(s, events[0]), events[1..]);
    }
  }

  // On such a branch one message id stands in one commit only.
  lemma {:induction false} ChainIdsUnique(head: Commit, c: Commit, p: Path, d: Commit, q: Path)
    requires Tidy(head) && Chained(Messages(head)) && Carries(head, c, p) && Carries(head, d, q)
    requires IdOf(c.tree[p]) == IdOf(d.tree[q])
    ensures c == d && p == q
    decreases head
  {
    hide Chained;
    hide Messages;
    hide ParseMessage;
    if c != head && d != head {
      ChainedBefore(head);
      ChainIdsUnique(head.parents[0], c, p, d, q);
    } else if c != head || d != head {
      var older, path := if c == head then d else c, if c == head then q else p;
      MessageInLog(head.parents[0], older, path);
      assert false by { OwnIsLast(head, if c == head then p else q, older.tree[path]); }
    }
  }

  lemma ChainedBefore(head: Commit)
    requires Tidy(head) && Chained(Messages(head)) && head.parents != []
    ensures Chained(Messages(head.parents[0]))
  {
    hide ParseMessage;
    var log, all := Messages(head.parents[0]), Messages(head);
    forall i | 0 <= i < |log|
      ensures Linked(log, i)
    {
      assert Linked(all, i);
    }
    forall i, j | 0 <= i < j < |log|
      ensures IdOf(log[i]) != IdOf(log[j])
    {
      assert all[i] == log[i] && all[j] == log[j];
    }
  }

  lemma OwnIsLast(head: Commit, p: Path, older: string)
    requires Tidy(head) && Chained(Messages(head)) && head.parents != [] && older in Messages(head.parents[0])
    requires Introduces(head, p) && IsMessagePath(p)
    ensures IdOf(older) != IdOf(head.tree[p])
  {
    hide ParseMessage;
    assert BringsMessage(head);
    assert Own(head) == [head.tree[p]];
    var log, all := Messages(head.parents[0]), Messages(head);
    var i :| 0 <= i < |log| && log[i] == older;
    assert all[i] == older && all[|log|] == head.tree[p];
  }
}
