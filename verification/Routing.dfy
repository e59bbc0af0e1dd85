/** The routing primitives of the runtime (routing.py): resolving an envelope to nodes, the bounded priority
    queue, and the duplicate window. */
module Routing {
  import opened Wrappers
  import opened Text
  import opened Registry

  // A validated envelope, as far as routing reads it.
  datatype Envelope = Envelope(messageId: string, audience: seq<string>, domain: string, intent: string, priority: int, key: string)

  function QueryOf(e: Envelope): Query {
    Query(e.domain, e.intent, e.priority)
  }

  // ---- Router ----

  // The identities that the audience names, each at its first mention; a name that does not resolve is skipped.
  function Named(r: Roster, audience: seq<string>): seq<string> {
    if audience == [] then []
    else
      var before, last := Named(r, audience[..|audience| - 1]), Resolve(r, audience[|audience| - 1]);
      if last.Err? || last.value in before then before else before + [last.value]
  }

  function Route(r: Roster, e: Envelope, now: int): Result<seq<string>, string> {
    if now < 0 then Err("INVALID_ROUTE_TIME")
    else RoutableSubscribers(r, QueryOf(e), now, if e.audience == [] then None else Some(Named(r, e.audience)))
  }

  predicate Mentions(r: Roster, audience: seq<string>, identity: string) {
    exists k :: 0 <= k < |audience| && Resolve(r, audience[k]) == Ok(identity)
  }

  // Where the audience first names the identity.
  function FirstMention(r: Roster, audience: seq<string>, identity: string): (k: nat)
    requires Mentions(r, audience, identity)
    ensures k < |audience| && Resolve(r, audience[k]) == Ok(identity)
    ensures forall j :: 0 <= j < k ==> Resolve(r, audience[j]) != Ok(identity)
  {
    hide Resolve;
    if Resolve(r, audience[0]) == Ok(identity) then 0 else
      MentionedLater(r, audience, identity);
      1 + FirstMention(r, audience[1..], identity)
  }

  lemma MentionedLater(r: Roster, audience: seq<string>, identity: string)
    requires Mentions(r, audience, identity) && Resolve(r, audience[0]) != Ok(identity)
    ensures Mentions(r, audience[1..], identity)
    ensures forall j :: 0 <= j < |audience| - 1 ==> audience[1..][j] == audience[j + 1]
  {
    hide Resolve;
    var k :| 0 <= k < |audience| && Resolve(r, audience[k]) == Ok(identity);
    assert audience[1..][k - 1] == audience[k];
  }

  lemma {:induction false} NamedExact(r: Roster, audience: seq<string>)
    ensures forall i :: i in Named(r, audience) <==> Mentions(r, audience, i)
  {
    if audience != [] {
      var init := audience[..|audience| - 1];
      NamedExact(r, init);
      hide Resolve;
      forall i
        ensures i in Named(r, audience) <==> Mentions(r, audience, i)
      {
        if Mentions(r, init, i) {
          var k :| 0 <= k < |init| && Resolve(r, init[k]) == Ok(i);
          assert audience[k] == init[k];
        }
      }
    }
  }

  // Earlier in the list is mentioned earlier.
  lemma {:induction false} NamedInOrder(r: Roster, audience: seq<string>, i: nat, j: nat)
    requires i < j < |Named(r, audience)|
    ensures Mentions(r, audience, Named(r, audience)[i]) && Mentions(r, audience, Named(r, audience)[j])
    ensures FirstMention(r, audience, Named(r, audience)[i]) < FirstMention(r, audience, Named(r, audience)[j])
  {
    hide Resolve;
    var init, named := audience[..|audience| - 1], Named(r, audience);
    var before := Named(r, init);
    NamedExact(r, audience);
    NamedExact(r, init);
    assert named[i] in named && named[j] in named;
    if j < |before| {
      NamedInOrder(r, init, i, j);
      FirstMentionOfPrefix(r, audience, named[i]);
      FirstMentionOfPrefix(r, audience, named[j]);
    } else {
      assert before[i] in before;
      FirstMentionOfPrefix(r, audience, named[i]);
      assert !Mentions(r, init, named[j]);
      LastMention(r, audience, named[j]);
    }
  }

  lemma FirstMentionOfPrefix(r: Roster, audience: seq<string>, identity: string)
    requires audience != [] && Mentions(r, audience[..|audience| - 1], identity)
    ensures Mentions(r, audience, identity)
    ensures FirstMention(r, audience, identity) == FirstMention(r, audience[..|audience| - 1], identity)
  {
    hide Resolve;
    var init := audience[..|audience| - 1];
    var k := FirstMention(r, init, identity);
    assert init[k] == audience[k];
    var l := FirstMention(r, audience, identity);
    assert forall m :: 0 <= m < |init| ==> init[m] == audience[m];
  }

  lemma LastMention(r: Roster, audience: seq<string>, identity: string)
    requires audience != [] && Mentions(r, audience, identity) && !Mentions(r, audience[..|audience| - 1], identity)
    ensures FirstMention(r, audience, identity) == |audience| - 1
  {
    hide Resolve;
    var k := FirstMention(r, audience, identity);
    var init := audience[..|audience| - 1];
    assert forall m :: 0 <= m < |init| ==> init[m] == audience[m];
  }

  // Resolved identities resolve to themselves.
  lemma {:induction false} ResolveNamed(r: Roster, audience: seq<string>)
    requires Valid(r)
    ensures ResolveAll(r, Named(r, audience)) == Ok(Named(r, audience))
    ensures forall i :: i in Named(r, audience) ==> i in r.identities
  {
    if audience != [] {
      var before, last := Named(r, audience[..|audience| - 1]), Resolve(r, audience[|audience| - 1]);
      ResolveNamed(r, audience[..|audience| - 1]);
      hide Normalize;
      if last.Ok? && last.value !in before { assert (before + [last.value])[..|before|] == before; }
    }
  }

  // ---- Candidates in their order ----

  // By first mention of the identity if there is an audience, then by node id.
  predicate Precedes(r: Roster, audience: seq<string>, m: string, n: string)
    requires m in r.nodes && n in r.nodes
    requires audience != [] ==> Mentions(r, audience, r.nodes[m].identity) && Mentions(r, audience, r.nodes[n].identity)
  {
    if audience == [] || r.nodes[m].identity == r.nodes[n].identity then m != n && Leq(m, n)
    else FirstMention(r, audience, r.nodes[m].identity) < FirstMention(r, audience, r.nodes[n].identity)
  }

  ghost predicate IsCandidate(r: Roster, audience: seq<string>, n: string) {
    n in r.nodes && (audience == [] || Mentions(r, audience, r.nodes[n].identity))
  }

  function Candidates(r: Roster, audience: seq<string>): seq<string> {
    if audience == [] then Sorted(r.nodes.Keys) else NodesOfAll(r, Named(r, audience))
  }

  lemma {:induction false} NodesOfAllExact(r: Roster, ids: seq<string>)
    ensures forall n :: n in NodesOfAll(r, ids) <==> n in r.nodes && r.nodes[n].identity in ids
  {
    if ids != [] {
      var init, last := ids[..|ids| - 1], ids[|ids| - 1];
      NodesOfAllExact(r, init);
      assert ids == init + [last];
      forall n ensures n in NodesOfAll(r, ids) <==> n in r.nodes && r.nodes[n].identity in ids {}
    }
  }

  // Position i of the list comes before position j: an earlier identity, or the same and a smaller node id.
  predicate ListedBefore(r: Roster, ids: seq<string>, m: string, n: string) {
    m in r.nodes && n in r.nodes
    && ((r.nodes[m].identity == r.nodes[n].identity && m != n && Leq(m, n))
        || exists a, b :: 0 <= a < b < |ids| && ids[a] == r.nodes[m].identity && ids[b] == r.nodes[n].identity)
  }

  lemma {:induction false} NodesOfAllOrdered(r: Roster, ids: seq<string>, i: nat, j: nat)
    requires i < j < |NodesOfAll(r, ids)|
    ensures ListedBefore(r, ids, NodesOfAll(r, ids)[i], NodesOfAll(r, ids)[j])
  {
    var init, last := ids[..|ids| - 1], ids[|ids| - 1];
    var before, all := NodesOfAll(r, init), NodesOfAll(r, ids);
    NodesOfAllExact(r, init);
    var nodes := NodesOf(r, last);
    if j < |before| {
      NodesOfAllOrdered(r, init, i, j);
      ListedLonger(r, ids, all[i], all[j]);
    } else if i < |before| {
      assert all[i] in before && all[j] == nodes[j - |before|] && all[j] in nodes;
      var a :| 0 <= a < |init| && init[a] == r.nodes[all[i]].identity;
      assert ids[a] == init[a] && ids[|init|] == last;
    } else {
      assert all[i] == nodes[i - |before|] && all[j] == nodes[j - |before|];
      assert all[i] in nodes && all[j] in nodes;
    }
  }

  lemma ListedLonger(r: Roster, ids: seq<string>, m: string, n: string)
    requires ids != [] && ListedBefore(r, ids[..|ids| - 1], m, n)
    ensures ListedBefore(r, ids, m, n)
  {
    var init := ids[..|ids| - 1];
    if !(r.nodes[m].identity == r.nodes[n].identity && m != n && Leq(m, n)) {
      var a, b :| 0 <= a < b < |init| && init[a] == r.nodes[m].identity && init[b] == r.nodes[n].identity;
      assert ids[a] == init[a] && ids[b] == init[b];
    }
  }

  lemma CandidatesExact(r: Roster, audience: seq<string>)
    ensures forall n :: n in Candidates(r, audience) <==> IsCandidate(r, audience, n)
  {
    if audience != [] {
      NamedExact(r, audience);
      NodesOfAllExact(r, Named(r, audience));
    }
  }

  lemma CandidatesOrdered(r: Roster, audience: seq<string>, i: nat, j: nat)
    requires i < j < |Candidates(r, audience)|
    ensures IsCandidate(r, audience, Candidates(r, audience)[i]) && IsCandidate(r, audience, Candidates(r, audience)[j])
    ensures Precedes(r, audience, Candidates(r, audience)[i], Candidates(r, audience)[j])
  {
    hide Resolve;
    var all := Candidates(r, audience);
    CandidatesExact(r, audience);
    assert all[i] in all && all[j] in all;
    if audience != [] {
      var named := Named(r, audience);
      NodesOfAllOrdered(r, named, i, j);
      if !(r.nodes[all[i]].identity == r.nodes[all[j]].identity && all[i] != all[j] && Leq(all[i], all[j])) {
        var a, b :| 0 <= a < b < |named| && named[a] == r.nodes[all[i]].identity && named[b] == r.nodes[all[j]].identity;
        NamedInOrder(r, audience, a, b);
      }
    }
  }

  // ---- Main result: what a route is ----

  /** A valid envelope is routed to exactly the live, subscribed nodes of the identities that it names, or of all
      identities if it names nobody; in the order of the audience and then of the node ids, each once. An audience
      that resolves to nobody reaches nobody. */
  lemma RouteExact(r: Roster, e: Envelope, now: int)
    requires Valid(r) && now >= 0 && QueryError(QueryOf(e)).None?
    ensures Route(r, e, now).Ok?
    ensures forall n :: n in Route(r, e, now).value <==>
                          IsCandidate(r, e.audience, n) && Live(r.nodes[n], now) && Subscribed(r, n, QueryOf(e))
    ensures forall i, j :: 0 <= i < j < |Route(r, e, now).value| ==> InOrder(r, e.audience, Route(r, e, now).value[i], Route(r, e, now).value[j])
    ensures e.audience != [] && Named(r, e.audience) == [] ==> Route(r, e, now) == Ok([])
  {
    hide QueryError;
    hide Live;
    hide Subscribed;
    hide Valid;
    var all := Candidates(r, e.audience);
    ResolveNamed(r, e.audience);
    CandidatesExact(r, e.audience);
    SelectExact(r, all, QueryOf(e), now);
    var picked := Route(r, e, now).value;
    var at: seq<nat> :| Picks(picked, all, at);
    forall i, j | 0 <= i < j < |picked|
      ensures InOrder(r, e.audience, picked[i], picked[j])
    {
      CandidatesOrdered(r, e.audience, at[i], at[j]);
    }
  }

  predicate InOrder(r: Roster, audience: seq<string>, m: string, n: string) {
    && m in r.nodes && n in r.nodes
    && (audience != [] ==> Mentions(r, audience, r.nodes[m].identity) && Mentions(r, audience, r.nodes[n].identity))
    && Precedes(r, audience, m, n) && m != n
  }

  class Router {
    const registry: IdentityRegistry

    constructor (registry: IdentityRegistry)
      ensures this.registry == registry
    {
      this.registry := registry;
    }

    method RouteEnvelope(e: Envelope, now: int) returns (r: Result<seq<string>, string>)
      ensures r == Route(registry.View(), e, now)
    {
      if now < 0 { return Err("INVALID_ROUTE_TIME"); }
      var named := None;
      if e.audience != [] {
        var ordered := [];
        for i := 0 to |e.audience|
          invariant ordered == Named(registry.View(), e.audience[..i])
        {
          assert e.audience[..i + 1][..i] == e.audience[..i];
          var identity := Resolve(registry.View(), e.audience[i]);
          if identity.Ok? && identity.value !in ordered { ordered := ordered + [identity.value]; }
        }
        assert e.audience[..|e.audience|] == e.audience;
        named := Some(ordered);
      }
      r := registry.RoutableSubscriberNodeIds(QueryOf(e), now, named);
    }
  }

  // ---- The bounded priority queue ----

  // counter is the order of arrival.
  datatype Entry = Entry(priority: int, counter: nat, envelope: Envelope)

  predicate Sooner(a: Entry, b: Entry) {
    a.priority < b.priority || (a.priority == b.priority && a.counter < b.counter)
  }

  // Arrival numbers are not reused.
  predicate Ahead(a: Entry, b: Entry) {
    Sooner(a, b) && a.counter != b.counter
  }

  // The heap, listed in the order in which it pops.
  datatype Queue = Queue(maxSize: nat, next: nat, entries: seq<Entry>)

  function Place(entries: seq<Entry>, e: Entry): seq<Entry> {
    if entries == [] then [e]
    else if Sooner(entries[0], e) then [entries[0]] + Place(entries[1..], e)
    else [e] + entries
  }

  // The largest entry makes room for a priority-zero one, unless it has priority zero itself.
  function Push(q: Queue, e: Envelope): (Queue, Result<Option<Entry>, string>) {
    var entry, n := Entry(e.priority, q.next, e), |q.entries|;
    if n < q.maxSize then (q.(next := q.next + 1, entries := Place(q.entries, entry)), Ok(None))
    else if e.priority != 0 || n == 0 || q.entries[n - 1].priority == 0 then (q.(next := q.next + 1), Err("RADAR_QUEUE_FULL"))
    else (q.(next := q.next + 1, entries := Place(q.entries[..n - 1], entry)), Ok(Some(q.entries[n - 1])))
  }

  function Pop(q: Queue): Result<(Queue, Entry), string> {
    if q.entries == [] then Err("RADAR_QUEUE_EMPTY") else Ok((q.(entries := q.entries[1..]), q.entries[0]))
  }

  ghost predicate QueueOk(q: Queue) {
    && 0 < q.maxSize && |q.entries| <= q.maxSize
    && (forall i, j :: 0 <= i < j < |q.entries| ==> Ahead(q.entries[i], q.entries[j]))
    && (forall e :: e in q.entries ==> e.counter < q.next && e.priority == e.envelope.priority && e.priority >= 0)
  }

  lemma {:induction false} PlaceSorted(entries: seq<Entry>, e: Entry)
    requires forall i, j :: 0 <= i < j < |entries| ==> Ahead(entries[i], entries[j])
    requires forall x :: x in entries ==> x.counter < e.counter
    ensures var r := Place(entries, e);
            && |r| == |entries| + 1
            && (forall x :: x in r <==> x in entries || x == e)
            && (forall i, j :: 0 <= i < j < |r| ==> Ahead(r[i], r[j]))
  {
    if entries != [] {
      assert entries == [entries[0]] + entries[1..];
      if Sooner(entries[0], e) {
        PlaceSorted(entries[1..], e);
        forall x | x in Place(entries[1..], e)
          ensures Ahead(entries[0], x)
        {
          if x != e { var i :| 0 <= i < |entries[1..]| && entries[1..][i] == x; }
        }
      } else {
        assert entries[0] in entries;
        forall i | 0 <= i < |entries| ensures Ahead(e, entries[i]) {}
      }
    }
  }

  lemma {:induction false} PlaceKeepsAll(entries: seq<Entry>, e: Entry)
    ensures multiset(Place(entries, e)) == multiset(entries) + multiset{e}
  {
    if entries != [] {
      assert entries == [entries[0]] + entries[1..];
      if Sooner(entries[0], e) { PlaceKeepsAll(entries[1..], e); }
    }
  }

  /** A push keeps the order and the bound. It loses nothing but the entry it reports: the last of all, of non-zero
      priority, for an envelope of priority zero and a full queue. */
  lemma PushLosesOnlyTheWorst(q: Queue, e: Envelope)
    requires QueueOk(q) && e.priority >= 0
    ensures var (after, r) := Push(q, e);
            && QueueOk(after) && after.maxSize == q.maxSize && after.next == q.next + 1
            && (r.Err? <==> |q.entries| == q.maxSize && (e.priority != 0 || forall x :: x in q.entries ==> x.priority == 0))
            && (r.Err? ==> after.entries == q.entries)
            && (r.Ok? ==> multiset(after.entries) + (if r.value.Some? then multiset{r.value.value} else multiset{})
                          == multiset(q.entries) + multiset{Entry(e.priority, q.next, e)})
            && (r.Ok? && r.value.Some? ==>
                  && e.priority == 0 && |q.entries| == q.maxSize && r.value.value.priority != 0
                  && r.value.value in q.entries && r.value.value !in after.entries
                  && forall x :: x in q.entries && x != r.value.value ==> Ahead(x, r.value.value))
  {
    var n, entry := |q.entries|, Entry(e.priority, q.next, e);
    if n < q.maxSize {
      PlaceSorted(q.entries, entry);
      PlaceKeepsAll(q.entries, entry);
    } else {
      var init, victim := q.entries[..n - 1], q.entries[n - 1];
      assert q.entries == init + [victim];
      assert victim in q.entries;
      PlaceSorted(init, entry);
      PlaceKeepsAll(init, entry);
    }
  }

  /** A pop takes the entry that no other is sooner than, by priority and then by arrival. */
  lemma PopTakesTheSoonest(q: Queue)
    requires QueueOk(q)
    ensures Pop(q).Err? <==> q.entries == []
    ensures Pop(q).Ok? ==>
              && QueueOk(Pop(q).value.0) && multiset(Pop(q).value.0.entries) + multiset{Pop(q).value.1} == multiset(q.entries)
              && forall x :: x in Pop(q).value.0.entries ==> Ahead(Pop(q).value.1, x)
  {
    hide Ahead;
    if q.entries != [] {
      RestIsBehind(q.entries);
      var first, rest := q.entries[0], q.entries[1..];
      assert q.entries == [first] + rest;
    }
  }

  lemma RestIsBehind(entries: seq<Entry>)
    requires entries != [] && forall i, j :: 0 <= i < j < |entries| ==> Ahead(entries[i], entries[j])
    ensures forall i, j :: 0 <= i < j < |entries[1..]| ==> Ahead(entries[1..][i], entries[1..][j])
    ensures forall x :: x in entries[1..] ==> x in entries && Ahead(entries[0], x)
  {
    hide Ahead;
    var rest := entries[1..];
    assert forall i :: 0 <= i < |rest| ==> rest[i] == entries[i + 1];
    forall x | x in rest
      ensures x in entries && Ahead(entries[0], x)
    {
      var i :| 0 <= i < |rest| && rest[i] == x;
    }
  }

  class PriorityQueue {
    const maxSize: nat
    var next: nat
    var heap: seq<Entry>

    constructor (maxSize: nat)
      requires maxSize > 0
      ensures View() == Queue(maxSize, 0, []) && QueueOk(View())
    {
      this.maxSize := maxSize;
      next, heap := 0, [];
    }

    function View(): Queue
      reads this
    {
      Queue(maxSize, next, heap)
    }

    method PushEnvelope(e: Envelope) returns (r: Result<Option<Entry>, string>)
      requires QueueOk(View()) && e.priority >= 0
      modifies this
      ensures QueueOk(View()) && (View(), r) == Push(old(View()), e)
    {
      PushLosesOnlyTheWorst(View(), e);
      var counter := next;
      next := next + 1;
      var evicted := None;
      if |heap| >= maxSize {
        if e.priority != 0 { return Err("RADAR_QUEUE_FULL"); }
        var victim := heap[|heap| - 1];
        if victim.priority == 0 { return Err("RADAR_QUEUE_FULL"); }
        heap := heap[..|heap| - 1];
        evicted := Some(victim);
      }
      heap := Place(heap, Entry(e.priority, counter, e));
      r := Ok(evicted);
    }

    method PopEnvelope() returns (r: Result<Entry, string>)
      requires QueueOk(View())
      modifies this`heap
      ensures QueueOk(View())
      ensures r.Err? ==> heap == old(heap) && Pop(old(View())) == Err(r.error)
      ensures r.Ok? ==> Pop(old(View())) == Ok((View(), r.value))
    {
      PopTakesTheSoonest(View());
      if heap == [] { return Err("RADAR_QUEUE_EMPTY"); }
      r := Ok(heap[0]);
      heap := heap[1..];
    }
  }

  // ---- The duplicate window ----

  datatype Seen = Seen(key: string, at: int)

  // The ordered dictionary, oldest insertion first.
  datatype Window = Window(windowMs: nat, seen: seq<Seen>, last: Option<int>)

  function Get(seen: seq<Seen>, key: string): Option<int> {
    if seen == [] then None else if seen[0].key == key then Some(seen[0].at) else Get(seen[1..], key)
  }

  function Without(seen: seq<Seen>, key: string): seq<Seen> {
    if seen == [] then [] else (if seen[0].key == key then [] else [seen[0]]) + Without(seen[1..], key)
  }

  // The prune loop: entries leave from the front while they are older than the cutoff.
  function Pruned(seen: seq<Seen>, key: string, cutoff: int): seq<Seen> {
    if seen == [] || seen[0].at >= cutoff || seen[0].key == key then seen else Pruned(seen[1..], key, cutoff)
  }

  function Accept(w: Window, key: string, now: int): (Window, Result<bool, string>) {
    if key == "" then (w, Err("INVALID_DEDUPE_KEY"))
    else if now < 0 then (w, Err("INVALID_DEDUPE_TIME"))
    else if w.last.Some? && now < w.last.value then (w, Err("DEDUPE_CLOCK_REGRESSION"))
    else
      var previous := Get(w.seen, key);
      if previous.Some? && now - previous.value <= w.windowMs then (w.(last := Some(now)), Ok(false))
      else
        var moved := Without(w.seen, key) + [Seen(key, now)];
        (w.(seen := Pruned(moved, key, now - w.windowMs), last := Some(now)), Ok(true))
  }

  function Rollback(w: Window, key: string, at: int): (Window, Result<bool, string>) {
    if key == "" then (w, Err("INVALID_DEDUPE_KEY"))
    else if at < 0 then (w, Err("INVALID_DEDUPE_TIME"))
    else if Get(w.seen, key) != Some(at) then (w, Ok(false))
    else (w.(seen := Without(w.seen, key)), Ok(true))
  }

  // Keys once, times in order, nothing from the future.
  ghost predicate WindowOk(w: Window) {
    && (forall i, j :: 0 <= i < j < |w.seen| ==> w.seen[i].key != w.seen[j].key && w.seen[i].at <= w.seen[j].at)
    && (forall e :: e in w.seen ==> w.last.Some? && e.at <= w.last.value)
  }

  lemma {:induction false} GetExact(seen: seq<Seen>, key: string)
    ensures Get(seen, key).Some? ==> Seen(key, Get(seen, key).value) in seen
    ensures Get(seen, key).None? ==> forall e :: e in seen ==> e.key != key
  {
    if seen != [] { GetExact(seen[1..], key); }
  }

  lemma SeenOnce(w: Window, key: string)
    requires WindowOk(w)
    ensures forall e :: e in w.seen && e.key == key ==> Get(w.seen, key) == Some(e.at)
  {
    GetExact(w.seen, key);
  }

  lemma {:induction false} WithoutExact(seen: seq<Seen>, key: string)
    ensures forall e :: e in Without(seen, key) <==> e in seen && e.key != key
    ensures |Without(seen, key)| <= |seen|
  {
    if seen != [] { WithoutExact(seen[1..], key); }
  }

  predicate InTime(seen: seq<Seen>) {
    forall i, j :: 0 <= i < j < |seen| ==> seen[i].key != seen[j].key && seen[i].at <= seen[j].at
  }

  lemma {:induction false} WithoutInTime(seen: seq<Seen>, key: string)
    requires InTime(seen)
    ensures InTime(Without(seen, key))
  {
    if seen != [] {
      hide InTime;
      var rest := Without(seen[1..], key);
      TailInTime(seen);
      WithoutInTime(seen[1..], key);
      WithoutExact(seen[1..], key);
      ConsInTime(seen[0], rest);
      assert [] + rest == rest;
    }
  }

  lemma TailInTime(seen: seq<Seen>)
    requires InTime(seen) && seen != []
    ensures InTime(seen[1..]) && forall e :: e in seen[1..] ==> seen[0].key != e.key && seen[0].at <= e.at
  {
    assert forall i :: 0 <= i < |seen[1..]| ==> seen[1..][i] == seen[i + 1];
  }

  lemma ConsInTime(first: Seen, rest: seq<Seen>)
    requires InTime(rest) && forall e :: e in rest ==> first.key != e.key && first.at <= e.at
    ensures InTime([first] + rest)
  {
  }

  // Pruning in time order drops exactly what is older than the cutoff.
  lemma {:induction false} PrunedExact(seen: seq<Seen>, key: string, cutoff: int)
    requires InTime(seen) && forall e :: e in seen && e.key == key ==> e.at >= cutoff
    ensures InTime(Pruned(seen, key, cutoff))
    ensures forall e :: e in Pruned(seen, key, cutoff) <==> e in seen && e.at >= cutoff
  {
    hide InTime;
    if seen != [] {
      TailInTime(seen);
      assert seen[0] in seen && forall e :: e in seen <==> e == seen[0] || e in seen[1..];
      if seen[0].at < cutoff && seen[0].key != key { PrunedExact(seen[1..], key, cutoff); }
    }
  }

  lemma AcceptKeepsOk(w: Window, key: string, now: int)
    requires WindowOk(w)
    ensures WindowOk(Accept(w, key, now).0)
    ensures Accept(w, key, now).1 == Ok(true) ==>
              forall e :: e in Accept(w, key, now).0.seen <==> e == Seen(key, now) || (e in w.seen && e.key != key && e.at >= now - w.windowMs)
  {
    hide Without;
    hide Pruned;
    hide Get;
    if Accept(w, key, now).1 == Ok(true) {
      MovedToEnd(w.seen, key, now);
      PrunedExact(Without(w.seen, key) + [Seen(key, now)], key, now - w.windowMs);
    }
  }

  lemma MovedToEnd(seen: seq<Seen>, key: string, now: int)
    requires InTime(seen) && forall e :: e in seen ==> e.at <= now
    ensures var moved := Without(seen, key) + [Seen(key, now)];
            InTime(moved) && forall e :: e in moved <==> e == Seen(key, now) || (e in seen && e.key != key)
  {
    WithoutExact(seen, key);
    WithoutInTime(seen, key);
    var rest := Without(seen, key);
    forall i | 0 <= i < |rest|
      ensures rest[i].key != key && rest[i].at <= now
    {
      assert rest[i] in rest;
    }
    assert forall e :: e in rest + [Seen(key, now)] <==> e in rest || e == Seen(key, now);
  }

  lemma RollbackKeepsOk(w: Window, key: string, at: int)
    requires WindowOk(w)
    ensures WindowOk(Rollback(w, key, at).0)
  {
    WithoutExact(w.seen, key);
    WithoutInTime(w.seen, key);
  }

  // ---- The window against an unbounded history ----

  // Every acceptance that was not rolled back.
  type History = set<Seen>

  predicate Recent(h: History, key: string, now: int, windowMs: nat) {
    exists e :: e in h && e.key == key && now - e.at <= windowMs
  }

  // The window remembers the latest acceptance of each key; what it has forgotten is out of reach.
  ghost predicate Remembers(w: Window, h: History) {
    && WindowOk(w)
    && (forall e :: e in w.seen ==> e in h)
    && (forall e :: e in h ==> w.last.Some? && e.at <= w.last.value)
    && (forall e :: e in h && e !in w.seen ==> e.at < w.last.value - w.windowMs)
  }

  datatype DedupeOp = AcceptOp(key: string, now: int) | RollbackOp(key: string, at: int)

  // What a call returns, and the state after it.
  function DedupeStep(w: Window, op: DedupeOp): (Window, Result<bool, string>) {
    match op
    case AcceptOp(key, now) => Accept(w, key, now)
    case RollbackOp(key, at) => Rollback(w, key, at)
  }

  // The same calls on the history alone.
  function HistoryAfter(h: History, op: DedupeOp, r: Result<bool, string>): History {
    match op
    case AcceptOp(key, now) => if r == Ok(true) then h + {Seen(key, now)} else h
    case RollbackOp(key, at) => if r.Ok? then h - {Seen(key, at)} else h
  }

  function SpecAccept(h: History, last: Option<int>, windowMs: nat, key: string, now: int): Result<bool, string> {
    if key == "" then Err("INVALID_DEDUPE_KEY")
    else if now < 0 then Err("INVALID_DEDUPE_TIME")
    else if last.Some? && now < last.value then Err("DEDUPE_CLOCK_REGRESSION")
    else Ok(!Recent(h, key, now, windowMs))
  }

  /** accept answers as the unbounded history would, and both stay in step. */
  lemma AcceptMatchesHistory(w: Window, h: History, key: string, now: int)
    requires Remembers(w, h)
    ensures Accept(w, key, now).1 == SpecAccept(h, w.last, w.windowMs, key, now)
    ensures Remembers(Accept(w, key, now).0, HistoryAfter(h, AcceptOp(key, now), Accept(w, key, now).1))
  {
    GetExact(w.seen, key);
    AcceptKeepsOk(w, key, now);
    var previous := Get(w.seen, key);
    if previous.Some? && now - previous.value <= w.windowMs {
      assert Seen(key, previous.value) in h;
    }
    if w.last.None? || now >= w.last.value { OnlyLatestCounts(w, h, key, now); }
  }

  lemma OnlyLatestCounts(w: Window, h: History, key: string, now: int)
    requires Remembers(w, h) && (w.last.Some? ==> now >= w.last.value)
    ensures Recent(h, key, now, w.windowMs) ==> Get(w.seen, key).Some? && now - Get(w.seen, key).value <= w.windowMs
  {
    GetExact(w.seen, key);
    if Recent(h, key, now, w.windowMs) {
      var e :| e in h && e.key == key && now - e.at <= w.windowMs;
      assert e in w.seen;
    }
  }

  lemma RollbackMatchesHistory(w: Window, h: History, key: string, at: int)
    requires Remembers(w, h)
    ensures Remembers(Rollback(w, key, at).0, HistoryAfter(h, RollbackOp(key, at), Rollback(w, key, at).1))
    ensures Rollback(w, key, at).1 == Ok(true) ==> Seen(key, at) in h
  {
    hide Get;
    hide Without;
    hide WindowOk;
    GetExact(w.seen, key);
    WithoutExact(w.seen, key);
    RollbackKeepsOk(w, key, at);
    SeenOnce(w, key);
  }

  // What the accept calls of a run return.
  function Answers(w: Window, ops: seq<DedupeOp>): seq<Result<bool, string>>
    decreases |ops|
  {
    if ops == [] then []
    else
      var (after, r) := DedupeStep(w, ops[0]);
      (if ops[0].AcceptOp? then [r] else []) + Answers(after, ops[1..])
  }

  function SpecAnswers(h: History, last: Option<int>, windowMs: nat, ops: seq<DedupeOp>): seq<Result<bool, string>>
    decreases |ops|
  {
    if ops == [] then []
    else
      match ops[0]
      case AcceptOp(key, now) =>
        var r := SpecAccept(h, last, windowMs, key, now);
        [r] + SpecAnswers(HistoryAfter(h, ops[0], r), if r.Ok? then Some(now) else last, windowMs, ops[1..])
      case RollbackOp(key, at) =>
        SpecAnswers(if key == "" || at < 0 then h else h - {Seen(key, at)}, last, windowMs, ops[1..])
  }

  /** Over any calls, accept returns false exactly when an acceptance of the key that was not rolled back is at most
      window_ms old, although the window prunes. */
  lemma {:induction false} WindowRefinesHistory(w: Window, h: History, ops: seq<DedupeOp>)
    requires Remembers(w, h)
    ensures Answers(w, ops) == SpecAnswers(h, w.last, w.windowMs, ops)
    decreases |ops|
  {
    hide Remembers;
    hide Recent;
    if ops != [] {
      var (after, r) := DedupeStep(w, ops[0]);
      match ops[0] {
        case AcceptOp(key, now) => AcceptMatchesHistory(w, h, key, now);
        case RollbackOp(key, at) => RollbackMatchesHistory(w, h, key, at);
      }
      WindowRefinesHistory(after, HistoryAfter(h, ops[0], r), ops[1..]);
    }
  }

  // Every accept of the run is made at this time or later.
  predicate NoneBefore(ops: seq<DedupeOp>, now: int) {
    forall i :: 0 <= i < |ops| ==> ops[i].AcceptOp? ==> ops[i].now >= now
  }

  // The clock of the window is no part of what it remembers: it only refuses times that are past.
  lemma {:induction false} ClockIsNoMemory(h: History, a: Option<int>, b: Option<int>, now: int, windowMs: nat, ops: seq<DedupeOp>)
    requires (a.Some? ==> a.value <= now) && (b.Some? ==> b.value <= now) && NoneBefore(ops, now)
    ensures SpecAnswers(h, a, windowMs, ops) == SpecAnswers(h, b, windowMs, ops)
    decreases |ops|
  {
    hide Recent;
    if ops != [] {
      var op, rest := ops[0], ops[1..];
      assert NoneBefore(rest, now) by { assert forall i :: 0 <= i < |rest| ==> rest[i] == ops[i + 1]; }
      match op {
        case AcceptOp(key, at) =>
          var r := SpecAccept(h, a, windowMs, key, at);
          assert r == SpecAccept(h, b, windowMs, key, at);
          if r.Err? { ClockIsNoMemory(h, a, b, now, windowMs, rest); }
        case RollbackOp(key, at) =>
          ClockIsNoMemory(if key == "" || at < 0 then h else h - {Seen(key, at)}, a, b, now, windowMs, rest);
      }
    }
  }

  /** An acceptance that is rolled back at once leaves no trace: at all later times the window answers as if accept
      had not been called. At earlier ones it answers as if only its clock had moved. */
  lemma RollbackForgets(w: Window, h: History, key: string, now: int, ops: seq<DedupeOp>)
    requires Remembers(w, h) && Accept(w, key, now).1 == Ok(true)
    ensures Rollback(Accept(w, key, now).0, key, now).1 == Ok(true)
    ensures NoneBefore(ops, now) ==> Answers(Rollback(Accept(w, key, now).0, key, now).0, ops) == Answers(w, ops)
    ensures Answers(Rollback(Accept(w, key, now).0, key, now).0, ops) == Answers(w.(last := Some(now)), ops)
  {
    AcceptedIsRolledBack(w, h, key, now);
    hide Remembers;
    hide Accept;
    hide Rollback;
    var back := Rollback(Accept(w, key, now).0, key, now).0;
    WindowRefinesHistory(back, h, ops);
    WindowRefinesHistory(w.(last := Some(now)), h, ops);
    WindowRefinesHistory(w, h, ops);
    if NoneBefore(ops, now) { ClockIsNoMemory(h, w.last, Some(now), now, w.windowMs, ops); }
  }

  lemma AcceptedIsRolledBack(w: Window, h: History, key: string, now: int)
    requires Remembers(w, h) && Accept(w, key, now).1 == Ok(true)
    ensures w.last.Some? ==> w.last.value <= now
    ensures var (back, r) := Rollback(Accept(w, key, now).0, key, now);
            r == Ok(true) && Remembers(back, h) && back.last == Some(now) && back.windowMs == w.windowMs
    ensures Remembers(w.(last := Some(now)), h)
  {
    var accepted := Accept(w, key, now).0;
    AcceptMatchesHistory(w, h, key, now);
    AcceptKeepsOk(w, key, now);
    assert Seen(key, now) in accepted.seen;
    SeenOnce(accepted, key);
    RollbackMatchesHistory(accepted, h + {Seen(key, now)}, key, now);
    assert !Recent(h, key, now, w.windowMs);
    assert Seen(key, now) !in h;
    assert h + {Seen(key, now)} - {Seen(key, now)} == h;
  }

  class DedupeWindow {
    const windowMs: nat
    var seen: seq<Seen>
    var last: Option<int>
    ghost var history: History

    constructor (windowMs: nat)
      ensures Valid() && View() == Window(windowMs, [], None) && history == {}
    {
      this.windowMs := windowMs;
      seen, last, history := [], None, {};
    }

    function View(): Window
      reads this
    {
      Window(windowMs, seen, last)
    }

    ghost predicate Valid()
      reads this
    {
      Remembers(View(), history)
    }

    method AcceptKey(key: string, now: int) returns (r: Result<bool, string>)
      requires Valid()
      modifies this
      ensures Valid() && (View(), r) == Accept(old(View()), key, now)
      ensures r == SpecAccept(old(history), old(last), windowMs, key, now)
      ensures history == HistoryAfter(old(history), AcceptOp(key, now), r)
    {
      hide Remembers;
      hide SpecAccept;
      hide Recent;
      hide Get;
      hide Without;
      AcceptMatchesHistory(View(), history, key, now);
      if key == "" { return Err("INVALID_DEDUPE_KEY"); }
      if now < 0 { return Err("INVALID_DEDUPE_TIME"); }
      if last.Some? && now < last.value { return Err("DEDUPE_CLOCK_REGRESSION"); }
      last := Some(now);
      var previous := Get(seen, key);
      if previous.Some? && now - previous.value <= windowMs { return Ok(false); }
      seen := Without(seen, key) + [Seen(key, now)];
      ghost var moved := seen;
      var cutoff := now - windowMs;
      while seen != [] && seen[0].at < cutoff && seen[0].key != key
        invariant Pruned(seen, key, cutoff) == Pruned(moved, key, cutoff)
        invariant last == Some(now) && history == old(history)
        decreases |seen|
      {
        seen := seen[1..];
      }
      history := history + {Seen(key, now)};
      r := Ok(true);
    }

    method RollbackAccept(key: string, at: int) returns (r: Result<bool, string>)
      requires Valid()
      modifies this
      ensures Valid() && (View(), r) == Rollback(old(View()), key, at)
      ensures history == HistoryAfter(old(history), RollbackOp(key, at), r)
    {
      RollbackMatchesHistory(View(), history, key, at);
      hide Remembers;
      if key == "" { return Err("INVALID_DEDUPE_KEY"); }
      if at < 0 { return Err("INVALID_DEDUPE_TIME"); }
      history := history - {Seen(key, at)};
      if Get(seen, key) != Some(at) { return Ok(false); }
      seen := Without(seen, key);
      r := Ok(true);
    }
  }
}
