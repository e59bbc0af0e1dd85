/** The in-process runtime (runtime.py): admission through the duplicate window into the queue, dispatch through
    the router, and the accounting of every message. */
module Runtime {
  import opened Wrappers
  import opened Registry
  import opened Routing

  // What RadarEnvelope.from_mapping made of a raw message.
  datatype Incoming = UnknownTaxonomy(rawId: string) | Malformed(rawId: string) | Admissible(envelope: Envelope)

  datatype Receipt = Receipt(state: string, messageId: string, recipients: seq<string>, evicted: Option<string>)

  // The three telemetry counters.
  datatype Counters = Counters(routed: nat, dropped: nat, dlq: nat)

  datatype Core = Core(queue: Queue, window: Window, counters: Counters)

  function Dropped(c: Core): Core {
    c.(counters := c.counters.(dropped := c.counters.dropped + 1))
  }

  // How a queued message left the queue.
  datatype Fate = Dispatched | WithoutRoute | Evicted

  // History variables: the arrivals that the queue took in, and the fate of each that has left it.
  datatype State = State(core: Core, arrived: set<nat>, ended: map<nat, Fate>)

  function End(s: State, counter: nat, fate: Fate): State {
    s.(ended := s.ended[counter := fate])
  }

  // The queue takes the envelope in, and evicts at most its worst entry.
  function TakeIn(s: State, queue: Queue, evicted: Option<Entry>): State {
    var u := s.(core := s.core.(queue := queue), arrived := s.arrived + {s.core.queue.next});
    if evicted.None? then u else End(u.(core := Dropped(u.core)), evicted.value.counter, Evicted)
  }

  function DispatchNext(s: State, roster: Roster, now: int): (State, Result<Receipt, string>) {
    if now < 0 then (s, Err("INVALID_ROUTE_TIME"))
    else
      var popped := Pop(s.core.queue);
      if popped.Err? then (s, Err(popped.error))
      else
        var (queue, entry) := popped.value;
        var t := s.(core := s.core.(queue := queue));
        var recipients := Route(roster, entry.envelope, now);
        if recipients.Err? then (t, Err(recipients.error))
        else if recipients.value == [] then
          (End(t.(core := Dropped(t.core)), entry.counter, WithoutRoute), Ok(Receipt("DROPPED_NO_ROUTE", entry.envelope.messageId, [], None)))
        else
          (End(t.(core := t.core.(counters := t.core.counters.(routed := t.core.counters.routed + 1))), entry.counter, Dispatched),
           Ok(Receipt("DISPATCHED", entry.envelope.messageId, recipients.value, None)))
  }

  // What the window and the queue make of an envelope: they settle it, or it now stands in the queue.
  datatype Taken = Settled(result: Result<Receipt, string>) | InQueue(evicted: Option<string>)

  function AcceptAndPush(s: State, e: Envelope, now: int): (State, Taken) {
    var (window, unseen) := Accept(s.core.window, e.key, now);
    var t := s.(core := s.core.(window := window));
    if unseen.Err? then (t, Settled(Err(unseen.error)))
    else if !unseen.value then (t.(core := Dropped(t.core)), Settled(Ok(Receipt("DROPPED_DUPLICATE", e.messageId, [], None))))
    else
      var (queue, pushed) := Push(s.core.queue, e);
      if pushed.Err? then
        (t.(core := Dropped(Core(queue, Rollback(window, e.key, now).0, t.core.counters))),
         Settled(Ok(Receipt("DROPPED_QUEUE_FULL", e.messageId, [], None))))
      else
        (TakeIn(t, queue, pushed.value), InQueue(if pushed.value.None? then None else Some(pushed.value.value.envelope.messageId)))
  }

  function Admit(s: State, roster: Roster, m: Incoming, now: int): (State, Result<Receipt, string>) {
    match m
    case UnknownTaxonomy(id) =>
      (s.(core := s.core.(counters := s.core.counters.(dlq := s.core.counters.dlq + 1))), Ok(Receipt("DLQ", id, [], None)))
    case Malformed(id) => (s.(core := Dropped(s.core)), Ok(Receipt("REJECTED", id, [], None)))
    case Admissible(e) =>
      var (v, taken) := AcceptAndPush(s, e, now);
      match taken
      case Settled(r) => (v, r)
      case InQueue(evicted) =>
        if e.priority == 0 then
          var (w, dispatched) := DispatchNext(v, roster, now);
          (w, if dispatched.Ok? then Ok(dispatched.value.(evicted := evicted)) else dispatched)
        else (v, Ok(Receipt("QUEUED", e.messageId, [], evicted)))
  }

  // ---- What every state satisfies ----

  predicate EnvelopeOk(e: Envelope) {
    QueryError(QueryOf(e)).None? && e.key != ""
  }

  predicate Queued(q: Queue, counter: nat) {
    exists e :: e in q.entries && e.counter == counter
  }

  // Every arrival is still queued or has met its fate, and not both.
  ghost predicate FatesOk(s: State) {
    && s.ended.Keys <= s.arrived
    && (forall k :: k in s.arrived ==> k < s.core.queue.next && (k in s.ended <==> !Queued(s.core.queue, k)))
    && (forall e :: e in s.core.queue.entries ==> e.counter in s.arrived)
  }

  ghost predicate QueueInv(s: State) {
    && QueueOk(s.core.queue) && FatesOk(s)
    && (forall e :: e in s.core.queue.entries ==> EnvelopeOk(e.envelope))
  }

  // Between operations no message of priority zero waits.
  predicate NothingUrgent(q: Queue) {
    forall e :: e in q.entries ==> e.priority != 0
  }

  ghost predicate Inv(s: State, h: History) {
    QueueInv(s) && NothingUrgent(s.core.queue) && Remembers(s.core.window, h)
  }

  // The messages that the counters and the queue account for.
  function Accounted(c: Core): nat {
    c.counters.routed + c.counters.dropped + c.counters.dlq + |c.queue.entries|
  }

  // A fate once met does not change.
  ghost predicate FatesKept(s: State, t: State) {
    s.arrived <= t.arrived && forall k :: k in s.ended ==> k in t.ended && t.ended[k] == s.ended[k]
  }

  lemma EntriesOf(a: seq<Entry>, b: seq<Entry>, e: Entry)
    requires multiset(a) + multiset{e} == multiset(b)
    ensures forall x :: x in b <==> x in a || x == e
    ensures |b| == |a| + 1
  {
    assert |multiset(a) + multiset{e}| == |a| + 1;
    forall x
      ensures x in b <==> x in a || x == e
    {
      assert x in b <==> x in multiset(b);
      assert x in a <==> x in multiset(a);
    }
  }

  // ---- Dispatch ----

  // The soonest entry leaves the queue, with the fate that the receipt of its message reports.
  ghost predicate TakesSoonest(s: State, t: State, r: Receipt, e: Entry) {
    && e in s.core.queue.entries
    && multiset(t.core.queue.entries) + multiset{e} == multiset(s.core.queue.entries)
    && (forall x :: x in t.core.queue.entries ==> Ahead(e, x))
    && r.messageId == e.envelope.messageId && r.state in {"DISPATCHED", "DROPPED_NO_ROUTE"}
    && t.ended == s.ended[e.counter := if r.state == "DISPATCHED" then Dispatched else WithoutRoute]
    && t.arrived == s.arrived && t.core.window == s.core.window
    && t.core.queue.next == s.core.queue.next && t.core.queue.maxSize == s.core.queue.maxSize
  }

  lemma ValidEnvelopeRoutes(roster: Roster, e: Envelope, now: int)
    requires Valid(roster) && EnvelopeOk(e) && now >= 0
    ensures Route(roster, e, now).Ok?
  {
    RouteExact(roster, e, now);
  }

  lemma DispatchTakesSoonest(s: State, roster: Roster, now: int)
    requires QueueInv(s) && Valid(roster) && now >= 0 && s.core.queue.entries != []
    ensures var (t, r) := DispatchNext(s, roster, now);
            && r.Ok? && TakesSoonest(s, t, r.value, s.core.queue.entries[0])
            && Accounted(t.core) == Accounted(s.core) && t.core.queue.entries == s.core.queue.entries[1..]
            && (r.value.state == "DISPATCHED" <==> Route(roster, s.core.queue.entries[0].envelope, now) != Ok([]))
            && r.value.evicted.None?
  {
    hide Route;
    hide QueueOk;
    hide FatesOk;
    hide EnvelopeOk;
    var first := s.core.queue.entries[0];
    assert first in s.core.queue.entries;
    ValidEnvelopeRoutes(roster, first.envelope, now);
    PopTakesTheSoonest(s.core.queue);
  }

  lemma DispatchKeepsInv(s: State, t: State, r: Receipt, e: Entry)
    requires QueueInv(s) && TakesSoonest(s, t, r, e) && QueueOk(t.core.queue)
    ensures QueueInv(t) && FatesKept(s, t)
  {
    hide EnvelopeOk;
    EntriesOf(t.core.queue.entries, s.core.queue.entries, e);
    assert Queued(s.core.queue, e.counter);
    assert e.counter in s.arrived;
    forall k | k in t.arrived
      ensures k in t.ended <==> !Queued(t.core.queue, k)
    {
      if Queued(t.core.queue, k) {
        var x :| x in t.core.queue.entries && x.counter == k;
        assert x in s.core.queue.entries && Ahead(e, x);
        assert Queued(s.core.queue, k);
      } else if Queued(s.core.queue, k) {
        var x :| x in s.core.queue.entries && x.counter == k;
        assert x == e;
      }
    }
  }

  /** dispatch_next takes the soonest message, counts it once, and its receipt is that message's; it raises, and
      changes nothing, only for an invalid time or an empty queue. */
  lemma DispatchAccounts(s: State, h: History, roster: Roster, now: int)
    requires Inv(s, h) && Valid(roster)
    ensures var (t, r) := DispatchNext(s, roster, now);
            && (r.Err? <==> now < 0 || s.core.queue.entries == []) && (r.Err? ==> t == s)
            && Inv(t, h) && FatesKept(s, t) && Accounted(t.core) == Accounted(s.core)
            && (r.Ok? ==> TakesSoonest(s, t, r.value, s.core.queue.entries[0]))
  {
    if now >= 0 && s.core.queue.entries != [] {
      DispatchTakesSoonest(s, roster, now);
      PopTakesTheSoonest(s.core.queue);
      var (t, r) := DispatchNext(s, roster, now);
      var first := s.core.queue.entries[0];
      hide Route;
      hide Remembers;
      hide DispatchNext;
      DispatchKeepsInv(s, t, r.value, first);
      EntriesOf(t.core.queue.entries, s.core.queue.entries, first);
    }
  }

  // ---- Admission ----

  lemma TakeInKeepsInv(s: State, e: Envelope)
    requires QueueInv(s) && NothingUrgent(s.core.queue) && EnvelopeOk(e) && Push(s.core.queue, e).1.Ok?
    ensures var (queue, r) := Push(s.core.queue, e);
            var t := TakeIn(s, queue, r.value);
            && QueueInv(t) && FatesKept(s, t) && Accounted(t.core) == Accounted(s.core) + 1
            && t.core.window == s.core.window
            && Entry(e.priority, s.core.queue.next, e) in queue.entries
            && (forall x :: x in queue.entries ==> x == Entry(e.priority, s.core.queue.next, e) || (x in s.core.queue.entries && x.priority != 0))
  {
    hide EnvelopeOk;
    assert e.priority >= 0 by { UrgencyKnown(e); }
    PushLosesOnlyTheWorst(s.core.queue, e);
    CountersDiffer(s.core.queue);
    hide Push;
    hide QueueOk;
    var (queue, r) := Push(s.core.queue, e);
    var entry := Entry(e.priority, s.core.queue.next, e);
    TakenIn(s.core.queue, queue, entry, r.value);
    TakeInFates(s, queue, entry, r.value);
  }

  lemma UrgencyKnown(e: Envelope)
    requires EnvelopeOk(e)
    ensures 0 <= e.priority <= 4
  {
  }

  lemma CountersDiffer(q: Queue)
    requires QueueOk(q)
    ensures forall x, y :: x in q.entries && y in q.entries && x.counter == y.counter ==> x == y
    ensures forall x :: x in q.entries ==> x.counter < q.next
  {
  }

  // The entries after a push.
  lemma TakenIn(q: Queue, after: Queue, entry: Entry, evicted: Option<Entry>)
    requires multiset(after.entries) + (if evicted.Some? then multiset{evicted.value} else multiset{}) == multiset(q.entries) + multiset{entry}
    requires evicted.Some? ==> evicted.value in q.entries
    requires forall x :: x in q.entries ==> x.counter != entry.counter
    requires forall x, y :: x in q.entries && y in q.entries && x.counter == y.counter ==> x == y
    requires evicted.Some? ==> evicted.value !in after.entries
    ensures evicted.Some? ==> forall x :: x in after.entries ==> x.counter != evicted.value.counter
    ensures forall x :: x in after.entries ==> x in q.entries || x == entry
    ensures forall x :: x in q.entries && Some(x) != evicted ==> x in after.entries
    ensures entry in after.entries
    ensures |after.entries| == |q.entries| + if evicted.Some? then 0 else 1
  {
    var out := if evicted.Some? then multiset{evicted.value} else multiset{};
    assert |multiset(after.entries) + out| == |q.entries| + 1;
    forall x
      ensures x in after.entries <==> x in multiset(after.entries)
      ensures x in q.entries <==> x in multiset(q.entries)
    {
    }
    assert entry in multiset(after.entries) + out;
    forall x | x in q.entries && Some(x) != evicted ensures x in after.entries { assert x in multiset(after.entries) + out; }
    forall x | x in after.entries ensures x in q.entries || x == entry { assert x in multiset(q.entries) + multiset{entry}; }
  }

  lemma TakeInFates(s: State, queue: Queue, entry: Entry, evicted: Option<Entry>)
    requires FatesOk(s) && entry.counter == s.core.queue.next && queue.next == s.core.queue.next + 1
    requires forall x :: x in queue.entries ==> x in s.core.queue.entries || x == entry
    requires forall x :: x in s.core.queue.entries && Some(x) != evicted ==> x in queue.entries
    requires entry in queue.entries
    requires evicted.Some? ==> evicted.value in s.core.queue.entries && forall x :: x in queue.entries ==> x.counter != evicted.value.counter
    ensures var t := TakeIn(s, queue, evicted); FatesOk(t) && FatesKept(s, t)
  {
    var t := TakeIn(s, queue, evicted);
    if evicted.Some? { assert Queued(s.core.queue, evicted.value.counter); }
    assert Queued(queue, entry.counter);
    forall k | k in t.arrived
      ensures k in t.ended <==> !Queued(t.core.queue, k)
    {
      if Queued(t.core.queue, k) {
        var x :| x in queue.entries && x.counter == k;
        if x != entry { assert Queued(s.core.queue, k); }
      } else if Queued(s.core.queue, k) {
        var x :| x in s.core.queue.entries && x.counter == k;
        assert Some(x) == evicted;
      }
    }
  }

  // An urgent message stands in front as soon as it is taken in.
  lemma UrgentIsFirst(q: Queue, entry: Entry)
    requires QueueOk(q) && entry in q.entries && entry.priority == 0
    requires forall x :: x in q.entries ==> x == entry || x.priority != 0
    ensures q.entries[0] == entry
  {
    var i :| 0 <= i < |q.entries| && q.entries[i] == entry;
    assert q.entries[0] in q.entries;
    assert i > 0 ==> Ahead(q.entries[0], q.entries[i]);
  }

  // The history of acceptances after an admission: that of a message for which there is no room is taken back.
  function HistoryAfterAdmit(s: State, h: History, m: Incoming, now: int): History {
    if !m.Admissible? then h
    else
      var (window, unseen) := Accept(s.core.window, m.envelope.key, now);
      var accepted := HistoryAfter(h, AcceptOp(m.envelope.key, now), unseen);
      if unseen == Ok(true) && Push(s.core.queue, m.envelope).1.Err? then
        HistoryAfter(accepted, RollbackOp(m.envelope.key, now), Rollback(window, m.envelope.key, now).1)
      else accepted
  }

  // What the receipt of an admission says.
  ghost predicate ReceiptOk(s: State, h: History, m: Incoming, now: int, t: State, r: Receipt) {
    match m
    case UnknownTaxonomy(id) => r.state == "DLQ" && r.messageId == id
    case Malformed(id) => r.state == "REJECTED" && r.messageId == id
    case Admissible(e) =>
      var q, n := s.core.queue, s.core.queue.next;
      && r.messageId == e.messageId
      && if Recent(h, e.key, now, s.core.window.windowMs) then r.state == "DROPPED_DUPLICATE" && t.core.queue == q
         else if |q.entries| == q.maxSize && e.priority != 0 then r.state == "DROPPED_QUEUE_FULL" && t.core.queue.entries == q.entries
         else if e.priority == 0 then
           && n in t.ended && r.state in {"DISPATCHED", "DROPPED_NO_ROUTE"}
           && t.ended[n] == (if r.state == "DISPATCHED" then Dispatched else WithoutRoute)
         else r.state == "QUEUED" && Queued(t.core.queue, n)
  }

  // The parts of an admission, for an envelope that the window accepts and the queue takes.
  lemma AdmitTakesIn(s: State, h: History, e: Envelope, now: int)
    requires Inv(s, h) && EnvelopeOk(e) && Accept(s.core.window, e.key, now).1 == Ok(true) && Push(s.core.queue, e).1.Ok?
    ensures var (queue, pushed) := Push(s.core.queue, e);
            var t := s.(core := s.core.(window := Accept(s.core.window, e.key, now).0));
            var v := TakeIn(t, queue, pushed.value);
            && QueueInv(v) && FatesKept(s, v) && Accounted(v.core) == Accounted(s.core) + 1
            && v.core.window == t.core.window && v.core.queue == queue
            && Entry(e.priority, s.core.queue.next, e) in queue.entries
            && (forall x :: x in queue.entries ==> x == Entry(e.priority, s.core.queue.next, e) || x.priority != 0)
  {
    hide EnvelopeOk;
    hide QueueOk;
    hide Remembers;
    hide Push;
    hide Accept;
    var t := s.(core := s.core.(window := Accept(s.core.window, e.key, now).0));
    assert QueueInv(t);
    TakeInKeepsInv(t, e);
  }

  lemma AdmitRefused(s: State, h: History, roster: Roster, e: Envelope, now: int)
    requires Inv(s, h) && EnvelopeOk(e)
    requires Accept(s.core.window, e.key, now).1 != Ok(true) || Push(s.core.queue, e).1.Err?
    ensures var (t, r) := Admit(s, roster, Admissible(e), now);
            && Inv(t, HistoryAfterAdmit(s, h, Admissible(e), now)) && FatesKept(s, t)
            && (r.Err? ==> t == s)
            && (r.Ok? ==> Accounted(t.core) == Accounted(s.core) + 1 && ReceiptOk(s, h, Admissible(e), now, t, r.value))
  {
    hide EnvelopeOk;
    hide QueueOk;
    hide Remembers;
    hide Push;
    hide Rollback;
    hide Recent;
    hide Accept;
    hide TakeIn;
    hide DispatchNext;
    hide FatesOk;
    AcceptMatchesHistory(s.core.window, h, e.key, now);
    AcceptRaises(s.core.window, e.key, now);
    assert e.priority >= 0 by { UrgencyKnown(e); }
    PushLosesOnlyTheWorst(s.core.queue, e);
    if |s.core.queue.entries| == s.core.queue.maxSize { FullQueueYields(s.core.queue); }
    var (window, answer) := Accept(s.core.window, e.key, now);
    RollbackMatchesHistory(window, HistoryAfter(h, AcceptOp(e.key, now), answer), e.key, now);
    var (t, r) := Admit(s, roster, Admissible(e), now);
    assert t.core.queue.entries == s.core.queue.entries;
    FatesSameQueue(s, t);
  }

  // Between operations a full queue has an entry that an urgent message can evict.
  lemma FullQueueYields(q: Queue)
    requires QueueOk(q) && NothingUrgent(q) && |q.entries| == q.maxSize
    ensures q.entries != [] && q.entries[0] in q.entries && q.entries[0].priority != 0
  {
  }

  lemma AcceptRaises(w: Window, key: string, now: int)
    ensures Accept(w, key, now).1.Err? ==> Accept(w, key, now).0 == w
  {
  }

  lemma FatesSameQueue(s: State, t: State)
    requires FatesOk(s) && t.arrived == s.arrived && t.ended == s.ended
    requires t.core.queue.entries == s.core.queue.entries && t.core.queue.next >= s.core.queue.next
    ensures FatesOk(t) && FatesKept(s, t)
  {
  }

  lemma AdmitQueued(s: State, h: History, roster: Roster, e: Envelope, now: int)
    requires Inv(s, h) && EnvelopeOk(e) && e.priority != 0
    requires Accept(s.core.window, e.key, now).1 == Ok(true) && Push(s.core.queue, e).1.Ok?
    ensures var (t, r) := Admit(s, roster, Admissible(e), now);
            && r.Ok? && Inv(t, HistoryAfterAdmit(s, h, Admissible(e), now)) && FatesKept(s, t)
            && Accounted(t.core) == Accounted(s.core) + 1 && ReceiptOk(s, h, Admissible(e), now, t, r.value)
  {
    hide EnvelopeOk;
    hide QueueOk;
    hide FatesOk;
    hide Remembers;
    hide Push;
    hide Accept;
    hide Recent;
    hide TakeIn;
    hide DispatchNext;
    AcceptMatchesHistory(s.core.window, h, e.key, now);
    assert e.priority >= 0 by { UrgencyKnown(e); }
    PushLosesOnlyTheWorst(s.core.queue, e);
    AdmitTakesIn(s, h, e, now);
  }

  lemma AdmitUrgent(s: State, h: History, roster: Roster, e: Envelope, now: int)
    requires Inv(s, h) && Valid(roster) && EnvelopeOk(e) && e.priority == 0
    requires Accept(s.core.window, e.key, now).1 == Ok(true) && Push(s.core.queue, e).1.Ok?
    ensures var (t, r) := Admit(s, roster, Admissible(e), now);
            && r.Ok? && Inv(t, HistoryAfterAdmit(s, h, Admissible(e), now)) && FatesKept(s, t)
            && Accounted(t.core) == Accounted(s.core) + 1 && ReceiptOk(s, h, Admissible(e), now, t, r.value)
  {
    hide EnvelopeOk;
    hide QueueOk;
    hide FatesOk;
    hide Remembers;
    hide Push;
    hide Accept;
    hide Recent;
    hide TakeIn;
    hide DispatchNext;
    AcceptMatchesHistory(s.core.window, h, e.key, now);
    AdmitTakesIn(s, h, e, now);
    var (queue, pushed) := Push(s.core.queue, e);
    var accepted := s.(core := s.core.(window := Accept(s.core.window, e.key, now).0));
    var v := TakeIn(accepted, queue, pushed.value);
    var entry := Entry(0, s.core.queue.next, e);
    UrgentIsFirst(queue, entry);
    UrgentDispatched(v, roster, now, entry);
  }

  // The dispatch that follows takes the urgent message itself.
  lemma UrgentDispatched(v: State, roster: Roster, now: int, entry: Entry)
    requires QueueInv(v) && Valid(roster) && now >= 0
    requires v.core.queue.entries != [] && v.core.queue.entries[0] == entry && entry.priority == 0
    requires forall x :: x in v.core.queue.entries ==> x == entry || x.priority != 0
    ensures var (t, r) := DispatchNext(v, roster, now);
            && r.Ok? && QueueInv(t) && FatesKept(v, t) && NothingUrgent(t.core.queue)
            && TakesSoonest(v, t, r.value, entry) && Accounted(t.core) == Accounted(v.core)
  {
    DispatchTakesSoonest(v, roster, now);
    PopTakesTheSoonest(v.core.queue);
    var (t, r) := DispatchNext(v, roster, now);
    hide Route;
    hide DispatchNext;
    DispatchKeepsInv(v, t, r.value, entry);
    EntriesOf(t.core.queue.entries, v.core.queue.entries, entry);
    assert NothingUrgent(t.core.queue) by {
      forall x | x in t.core.queue.entries ensures x.priority != 0 { assert Ahead(entry, x); }
    }
  }

  /** An admission that does not raise is accounted for once: as routed, dropped, dead-lettered, or one more in the
      queue. A message of priority zero that is no duplicate is dispatched at once, whatever the queue holds. */
  lemma AdmitAccounts(s: State, h: History, roster: Roster, m: Incoming, now: int)
    requires Inv(s, h) && Valid(roster) && (m.Admissible? ==> EnvelopeOk(m.envelope))
    ensures var (t, r) := Admit(s, roster, m, now);
            && Inv(t, HistoryAfterAdmit(s, h, m, now)) && FatesKept(s, t)
            && (r.Err? ==> t == s)
            && (r.Ok? ==> Accounted(t.core) == Accounted(s.core) + 1 && ReceiptOk(s, h, m, now, t, r.value))
  {
    if m.Admissible? {
      var e := m.envelope;
      hide Inv;
      hide ReceiptOk;
      hide EnvelopeOk;
      hide FatesKept;
      if Accept(s.core.window, e.key, now).1 != Ok(true) || Push(s.core.queue, e).1.Err? {
        AdmitRefused(s, h, roster, e, now);
      } else if e.priority == 0 {
        AdmitUrgent(s, h, roster, e, now);
      } else {
        AdmitQueued(s, h, roster, e, now);
      }
    } else {
      FatesSameQueue(s, Admit(s, roster, m, now).0);
    }
  }

  // ---- Runs ----

  // The registry may change between operations; an operation sees it as it then is.
  datatype Op = AdmitOp(roster: Roster, message: Incoming, now: int) | DispatchOp(roster: Roster, now: int)

  ghost predicate Legal(op: Op) {
    Valid(op.roster) && (op.AdmitOp? && op.message.Admissible? ==> EnvelopeOk(op.message.envelope))
  }

  function Exec(s: State, op: Op): (State, Result<Receipt, string>) {
    match op
    case AdmitOp(roster, m, now) => Admit(s, roster, m, now)
    case DispatchOp(roster, now) => DispatchNext(s, roster, now)
  }

  function Run(s: State, ops: seq<Op>): State
    decreases |ops|
  {
    if ops == [] then s else Run(Exec(s, ops[0]).0, ops[1..])
  }

  // The admissions of a run that did not raise.
  function Admissions(s: State, ops: seq<Op>): nat
    decreases |ops|
  {
    if ops == [] then 0
    else (if ops[0].AdmitOp? && Exec(s, ops[0]).1.Ok? then 1 else 0) + Admissions(Exec(s, ops[0]).0, ops[1..])
  }

  /** Conservation: over any operations, the admissions are the routed, the dropped, the dead-lettered and the queued
      messages; each arrival in the queue is queued still or has one fate, which does not change. */
  lemma {:induction false} NothingIsLost(s: State, h: History, ops: seq<Op>)
    requires Inv(s, h) && forall i :: 0 <= i < |ops| ==> Legal(ops[i])
    ensures Accounted(Run(s, ops).core) == Accounted(s.core) + Admissions(s, ops)
    ensures FatesKept(s, Run(s, ops)) && exists k :: Inv(Run(s, ops), k)
    decreases |ops|
  {
    hide Inv;
    hide Admit;
    hide DispatchNext;
    hide Accounted;
    if ops != [] {
      assert Legal(ops[0]);
      var t := Exec(s, ops[0]).0;
      var next := h;
      match ops[0] {
        case AdmitOp(roster, m, now) =>
          AdmitAccounts(s, h, roster, m, now);
          next := HistoryAfterAdmit(s, h, m, now);
        case DispatchOp(roster, now) => DispatchAccounts(s, h, roster, now);
      }
      hide Exec;
      assert forall i :: 0 <= i < |ops[1..]| ==> Legal(ops[1..][i]);
      NothingIsLost(t, next, ops[1..]);
    }
  }

  function Start(queueSize: nat, windowMs: nat): State {
    State(Core(Queue(queueSize, 0, []), Window(windowMs, [], None), Counters(0, 0, 0)), {}, map[])
  }

  lemma StartInv(queueSize: nat, windowMs: nat)
    requires queueSize > 0
    ensures Inv(Start(queueSize, windowMs), {}) && Accounted(Start(queueSize, windowMs).core) == 0
  {
  }

  // ---- The runtime object ----

  class RadarRuntime {
    const queue: PriorityQueue
    const dedupe: DedupeWindow
    const router: Router
    var routed: nat
    var dropped: nat
    var dlq: nat
    ghost var arrived: set<nat>
    ghost var ended: map<nat, Fate>

    constructor (registry: IdentityRegistry, queueSize: nat, windowMs: nat)
      requires queueSize > 0
      ensures Good() && View() == Start(queueSize, windowMs)
      ensures fresh(queue) && fresh(dedupe) && router.registry == registry
    {
      queue := new PriorityQueue(queueSize);
      dedupe := new DedupeWindow(windowMs);
      router := new Router(registry);
      routed, dropped, dlq := 0, 0, 0;
      arrived, ended := {}, map[];
    }

    function Counted(): Core
      reads this, queue, dedupe
    {
      Core(queue.View(), dedupe.View(), Counters(routed, dropped, dlq))
    }

    ghost function View(): State
      reads this, queue, dedupe
    {
      State(Counted(), arrived, ended)
    }

    ghost predicate Good()
      reads this, queue, dedupe
    {
      Inv(View(), dedupe.history)
    }

    // All but the priorities, which hold again once the urgent message is out.
    ghost predicate MayDispatch()
      reads this, queue, dedupe
    {
      QueueInv(View())
    }

    method Dispatch(now: int) returns (r: Result<Receipt, string>)
      requires MayDispatch() && Valid(router.registry.View())
      modifies this, queue
      ensures QueueOk(queue.View())
      ensures (View(), r) == DispatchNext(old(View()), old(router.registry.View()), now)
    {
      hide FatesOk;
      hide QueueOk;
      hide EnvelopeOk;
      hide Route;
      if now < 0 { return Err("INVALID_ROUTE_TIME"); }
      var popped := queue.PopEnvelope();
      if popped.Err? { return Err(popped.error); }
      var recipients := router.RouteEnvelope(popped.value.envelope, now);
      if recipients.Err? { return Err(recipients.error); }
      if recipients.value == [] {
        dropped := dropped + 1;
        ended := ended[popped.value.counter := WithoutRoute];
        return Ok(Receipt("DROPPED_NO_ROUTE", popped.value.envelope.messageId, [], None));
      }
      routed := routed + 1;
      ended := ended[popped.value.counter := Dispatched];
      r := Ok(Receipt("DISPATCHED", popped.value.envelope.messageId, recipients.value, None));
    }

    method DispatchNextMessage(now: int) returns (r: Result<Receipt, string>)
      requires Good() && Valid(router.registry.View())
      modifies this, queue
      ensures Good() && (View(), r) == DispatchNext(old(View()), old(router.registry.View()), now)
      ensures Accounted(Counted()) == Accounted(old(Counted())) && FatesKept(old(View()), View())
    {
      DispatchAccounts(View(), dedupe.history, router.registry.View(), now);
      hide DispatchNext;
      hide Inv;
      assert MayDispatch() by { InvQueue(View(), dedupe.history); }
      r := Dispatch(now);
    }

    method AdmitMessage(m: Incoming, now: int) returns (r: Result<Receipt, string>)
      requires Good() && Valid(router.registry.View()) && (m.Admissible? ==> EnvelopeOk(m.envelope))
      modifies this, queue, dedupe
      ensures Good() && (View(), r) == Admit(old(View()), old(router.registry.View()), m, now)
      ensures r.Ok? ==> Accounted(Counted()) == Accounted(old(Counted())) + 1
      ensures r.Ok? ==> ReceiptOk(old(View()), old(dedupe.history), m, now, View(), r.value)
      ensures r.Err? ==> View() == old(View())
      ensures FatesKept(old(View()), View())
    {
      ghost var s, h := View(), dedupe.history;
      AdmitAccounts(s, h, router.registry.View(), m, now);
      match m {
        case UnknownTaxonomy(id) =>
          dlq := dlq + 1;
          r := Ok(Receipt("DLQ", id, [], None));
        case Malformed(id) =>
          dropped := dropped + 1;
          r := Ok(Receipt("REJECTED", id, [], None));
        case Admissible(e) =>
          r := AdmitEnvelope(e, now);
      }
    }

    method AcceptAndPushEnvelope(e: Envelope, now: int) returns (taken: Taken)
      requires MayDispatch() && dedupe.Valid() && e.priority >= 0
      modifies this, queue, dedupe
      ensures (View(), taken) == AcceptAndPush(old(View()), e, now)
      ensures dedupe.history == HistoryAfterAdmit(old(View()), old(dedupe.history), Admissible(e), now)
    {
      hide FatesOk;
      hide EnvelopeOk;
      hide QueueOk;
      hide Remembers;
      hide Push;
      hide Accept;
      hide Rollback;
      hide SpecAccept;
      var unseen := dedupe.AcceptKey(e.key, now);
      if unseen.Err? { return Settled(Err(unseen.error)); }
      if !unseen.value {
        dropped := dropped + 1;
        return Settled(Ok(Receipt("DROPPED_DUPLICATE", e.messageId, [], None)));
      }
      ghost var counter := queue.next;
      var pushed := queue.PushEnvelope(e);
      if pushed.Err? {
        var undone := dedupe.RollbackAccept(e.key, now);
        dropped := dropped + 1;
        return Settled(Ok(Receipt("DROPPED_QUEUE_FULL", e.messageId, [], None)));
      }
      arrived := arrived + {counter};
      if pushed.value.None? { return InQueue(None); }
      dropped := dropped + 1;
      ended := ended[pushed.value.value.counter := Evicted];
      taken := InQueue(Some(pushed.value.value.envelope.messageId));
    }

    method AdmitEnvelope(e: Envelope, now: int) returns (r: Result<Receipt, string>)
      requires Good() && Valid(router.registry.View()) && EnvelopeOk(e)
      modifies this, queue, dedupe
      ensures (View(), r) == Admit(old(View()), old(router.registry.View()), Admissible(e), now)
      ensures dedupe.history == HistoryAfterAdmit(old(View()), old(dedupe.history), Admissible(e), now)
    {
      assert e.priority >= 0 by { UrgencyKnown(e); }
      InvQueue(View(), dedupe.history);
      TakenKeepsInv(View(), dedupe.history, e, now);
      hide Inv;
      hide QueueInv;
      hide EnvelopeOk;
      hide Remembers;
      hide DispatchNext;
      hide AcceptAndPush;
      hide HistoryAfterAdmit;
      var taken := AcceptAndPushEnvelope(e, now);
      if taken.Settled? { return taken.result; }
      if e.priority == 0 {
        var dispatched := Dispatch(now);
        if dispatched.Ok? { return Ok(dispatched.value.(evicted := taken.evicted)); }
        return dispatched;
      }
      r := Ok(Receipt("QUEUED", e.messageId, [], taken.evicted));
    }
  }

  lemma TakenKeepsInv(s: State, h: History, e: Envelope, now: int)
    requires Inv(s, h) && EnvelopeOk(e)
    ensures AcceptAndPush(s, e, now).1.InQueue? ==> QueueInv(AcceptAndPush(s, e, now).0)
  {
    hide Inv;
    hide QueueInv;
    hide EnvelopeOk;
    hide Push;
    hide Accept;
    hide TakeIn;
    if AcceptAndPush(s, e, now).1.InQueue? { AdmitTakesIn(s, h, e, now); }
  }

  lemma InvQueue(s: State, h: History)
    requires Inv(s, h)
    ensures QueueInv(s) && QueueOk(s.core.queue) && Remembers(s.core.window, h)
  {
  }
}
