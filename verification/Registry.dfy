/** Logical identities, their nodes and subscriptions (registry.py), and which nodes a query selects. */
module Registry {
  import opened Wrappers
  import opened Text
  import MG = MessageGrammar

  const ALLOWED_DOMAINS: set<string> := {
    "system", "llm", "ui", "database", "coordination", "security", "chat_bus", "protocol", "repository"
  }

  const ALLOWED_INTENTS: set<string> := {
    "command", "query", "event", "error", "telemetry", "verification", "bus_message"
  }

  datatype NodeStatus = Online | Idle | Working | WaitingDependency | Degraded | Offline | PausedNode | Archived

  const ROUTABLE_NODE_STATUSES := {Online, Idle, Working, WaitingDependency, Degraded}

  datatype Identity = Identity(id: string, displayName: string, aliases: seq<string>)

  datatype Node = Node(id: string, identity: string, status: NodeStatus, heartbeat: Option<int>, lease: Option<int>)

  datatype Subscription = Subscription(node: string, identity: string, domain: string, intent: Option<string>, minPriority: int, enabled: bool)

  datatype Roster = Roster(identities: map<string, Identity>, aliases: map<string, string>, nodes: map<string, Node>,
                           subscriptions: seq<Subscription>)

  const EMPTY := Roster(map[], map[], map[], [])

  // ---- Names ----

  function Normalize(value: string): Result<string, string> {
    var text := MG.Strip(value);
    if text == [] then Err("INVALID_IDENTIFIER") else Ok(Fold(text))
  }

  function Resolve(r: Roster, value: string): Result<string, string> {
    var key := Normalize(value);
    if key.Err? then key
    else if key.value in r.identities then key
    else if key.value in r.aliases then Ok(r.aliases[key.value])
    else Err("UNKNOWN_IDENTITY")
  }

  // The aliases in normal form; none is the identity itself or comes twice.
  function NormalAliases(canonical: string, aliases: seq<string>): Result<seq<string>, string> {
    if aliases == [] then Ok([])
    else
      var before := NormalAliases(canonical, aliases[..|aliases| - 1]);
      var last := Normalize(aliases[|aliases| - 1]);
      if before.Err? then before
      else if last.Err? then Err(last.error)
      else if last.value == canonical || last.value in before.value then Err("ALIAS_COLLISION")
      else Ok(before.value + [last.value])
  }

  function WithAliases(aliases: map<string, string>, names: seq<string>, canonical: string): map<string, string> {
    aliases + map n | n in names :: canonical
  }

  function RegisterIdentity(r: Roster, id: string, displayName: string, aliases: seq<string>): Result<Roster, string> {
    var canonical := Normalize(id);
    if canonical.Err? then Err(canonical.error)
    else if MG.Strip(displayName) == [] then Err("DISPLAY_NAME_REQUIRED")
    else
      var names := NormalAliases(canonical.value, aliases);
      if names.Err? then Err(names.error)
      else if canonical.value in r.identities || canonical.value in r.aliases then Err("IDENTITY_COLLISION")
      else if exists n :: n in names.value && (n in r.identities || n in r.aliases) then Err("ALIAS_COLLISION")
      else Ok(r.(identities := r.identities[canonical.value := Identity(canonical.value, MG.Strip(displayName), names.value)],
                 aliases := WithAliases(r.aliases, names.value, canonical.value)))
  }

  function RegisterNode(r: Roster, id: string, identity: string, status: NodeStatus, heartbeat: Option<int>, lease: Option<int>): Result<Roster, string> {
    var canonical, owner := Normalize(id), Resolve(r, identity);
    if canonical.Err? then Err(canonical.error)
    else if owner.Err? then Err(owner.error)
    else if (heartbeat.Some? && heartbeat.value < 0) || (lease.Some? && lease.value < 0) then Err("INVALID_NODE_LEASE_TIME")
    else if heartbeat.Some? && lease.Some? && lease.value < heartbeat.value then Err("INVALID_NODE_LEASE_TIME")
    else if canonical.value in r.nodes then Err("NODE_COLLISION")
    else Ok(r.(nodes := r.nodes[canonical.value := Node(canonical.value, owner.value, status, heartbeat, lease)]))
  }

  function SetNodeStatus(r: Roster, id: string, status: NodeStatus): Result<Roster, string> {
    var key := Normalize(id);
    if key.Err? then Err(key.error)
    else if key.value !in r.nodes then Err("UNKNOWN_NODE")
    else Ok(r.(nodes := r.nodes[key.value := r.nodes[key.value].(status := status)]))
  }

  // sorted(..., key=node_id)
  function NodesOf(r: Roster, identity: string): seq<string> {
    Sorted(set n | n in r.nodes && r.nodes[n].identity == identity)
  }

  // A node by its own name, or the one node of an identity.
  function SubscriptionNode(r: Roster, target: string): Result<string, string> {
    var key := Normalize(target);
    if key.Err? then key
    else if key.value in r.nodes then key
    else
      var owner := Resolve(r, target);
      if owner.Err? then owner
      else
        var nodes := NodesOf(r, owner.value);
        if |nodes| != 1 then Err("AMBIGUOUS_SUBSCRIPTION_TARGET") else Ok(nodes[0])
  }

  function DomainKey(domain: string): Result<string, string> {
    var text := MG.Strip(domain);
    if text == [] then Err("DOMAIN_REQUIRED")
    else if Fold(text) !in ALLOWED_DOMAINS then Err("UNKNOWN_DOMAIN")
    else Ok(Fold(text))
  }

  function IntentKey(intent: string): Result<string, string> {
    var text := MG.Strip(intent);
    if text == [] then Err("INTENT_REQUIRED")
    else if Fold(text) !in ALLOWED_INTENTS then Err("UNKNOWN_INTENT")
    else Ok(Fold(text))
  }

  function OptionalIntentKey(intent: Option<string>): Result<Option<string>, string> {
    if intent.None? then Ok(None)
    else
      var key := IntentKey(intent.value);
      if key.Err? then Err(key.error) else Ok(Some(key.value))
  }

  function Subscribe(r: Roster, target: string, domain: string, intent: Option<string>, minPriority: int, enabled: bool): Result<Roster, string> {
    var domainKey, intentKey := DomainKey(domain), OptionalIntentKey(intent);
    if domainKey.Err? then Err(domainKey.error)
    else if !(0 <= minPriority <= 4) then Err("INVALID_PRIORITY")
    else if intentKey.Err? then Err(intentKey.error)
    else
      var node := SubscriptionNode(r, target);
      if node.Err? then Err(node.error)
      else if node.value !in r.nodes then Err("UNKNOWN_NODE")
      else
        var s := Subscription(node.value, r.nodes[node.value].identity, domainKey.value, intentKey.value, minPriority, enabled);
        Ok(if s in r.subscriptions then r else r.(subscriptions := r.subscriptions + [s]))
  }

  // ---- What every registry satisfies ----

  predicate Valid(r: Roster) {
    && (forall i :: i in r.identities ==> i !in r.aliases)
    && (forall a :: a in r.aliases ==> r.aliases[a] in r.identities)
    && (forall i :: i in r.identities ==> Normalize(i) == Ok(i))
    && (forall n :: n in r.nodes ==> r.nodes[n].id == n && r.nodes[n].identity in r.identities && Normalize(n) == Ok(n))
  }

  datatype Op =
    | AddIdentity(id: string, displayName: string, aliases: seq<string>)
    | AddNode(id: string, identity: string, status: NodeStatus, heartbeat: Option<int>, lease: Option<int>)
    | ChangeStatus(id: string, status: NodeStatus)
    | AddSubscription(target: string, domain: string, intent: Option<string>, minPriority: int, enabled: bool)

  function Exec(r: Roster, op: Op): Result<Roster, string> {
    match op
    case AddIdentity(id, displayName, aliases) => RegisterIdentity(r, id, displayName, aliases)
    case AddNode(id, identity, status, heartbeat, lease) => RegisterNode(r, id, identity, status, heartbeat, lease)
    case ChangeStatus(id, status) => SetNodeStatus(r, id, status)
    case AddSubscription(target, domain, intent, minPriority, enabled) => Subscribe(r, target, domain, intent, minPriority, enabled)
  }

  // An operation that raises changes nothing.
  function Next(r: Roster, op: Op): Roster {
    var after := Exec(r, op);
    if after.Ok? then after.value else r
  }

  function Run(r: Roster, ops: seq<Op>): Roster
    decreases |ops|
  {
    if ops == [] then r else Run(Next(r, ops[0]), ops[1..])
  }

  // Folding and stripping once is enough.
  lemma NormalizeTwice(value: string)
    requires Normalize(value).Ok?
    ensures Normalize(Normalize(value).value) == Normalize(value)
  {
    var text := MG.Strip(value);
    StripEnds(value);
    FoldIsFixed(text);
    var folded := Fold(text);
    assert !MG.IsSpace(folded[0]) && !MG.IsSpace(folded[|folded| - 1]);
    assert MG.LStrip(folded) == folded && MG.RStrip(folded) == folded;
  }

  lemma FoldIsFixed(text: string)
    ensures Fold(Fold(text)) == Fold(text)
    ensures forall i :: 0 <= i < |text| ==> MG.IsSpace(Fold(text)[i]) == MG.IsSpace(text[i])
  {
  }

  lemma StripEnds(value: string)
    ensures var text := MG.Strip(value); text != [] ==> !MG.IsSpace(text[0]) && !MG.IsSpace(text[|text| - 1])
  {
    LStripStart(value);
    RStripEnds(MG.LStrip(value));
  }

  lemma {:induction false} LStripStart(value: string)
    ensures MG.LStrip(value) != [] ==> !MG.IsSpace(MG.LStrip(value)[0])
  {
    if value != [] && MG.IsSpace(value[0]) { LStripStart(value[1..]); }
  }

  lemma {:induction false} RStripEnds(value: string)
    ensures var text := MG.RStrip(value); text != [] ==> value != [] && text[0] == value[0] && !MG.IsSpace(text[|text| - 1])
  {
    if value != [] && MG.IsSpace(value[|value| - 1]) { RStripEnds(value[..|value| - 1]); }
  }

  lemma {:induction false} NormalAliasesAreNormal(canonical: string, aliases: seq<string>)
    ensures var names := NormalAliases(canonical, aliases);
            names.Ok? ==> canonical !in names.value
  {
    if aliases != [] { NormalAliasesAreNormal(canonical, aliases[..|aliases| - 1]); }
  }

  lemma IdentityKeepsValid(r: Roster, id: string, displayName: string, aliases: seq<string>)
    requires Valid(r) && RegisterIdentity(r, id, displayName, aliases).Ok?
    ensures Valid(RegisterIdentity(r, id, displayName, aliases).value)
  {
    hide Normalize;
    hide NormalAliases;
    hide MG.Strip;
    hide Fold;
    NormalizeTwice(id);
    var canonical := Normalize(id).value;
    NormalAliasesAreNormal(canonical, aliases);
    NamesStayApart(r.identities, r.aliases, NormalAliases(canonical, aliases).value, canonical);
  }

  lemma NamesStayApart(identities: map<string, Identity>, aliases: map<string, string>, names: seq<string>, canonical: string)
    requires forall i :: i in identities ==> i !in aliases
    requires canonical !in aliases && canonical !in names
    requires forall n :: n in names ==> n !in identities
    ensures forall i :: i in identities || i == canonical ==> i !in WithAliases(aliases, names, canonical)
  {
  }

  lemma NodesKnowTheirId(r: Roster)
    requires Valid(r)
    ensures forall n :: n in r.nodes ==> r.nodes[n].id == n
  {
  }

  lemma NextKeepsValid(r: Roster, op: Op)
    requires Valid(r)
    ensures Valid(Next(r, op))
  {
    hide Normalize;
    match op {
      case AddIdentity(id, displayName, aliases) =>
        if RegisterIdentity(r, id, displayName, aliases).Ok? { IdentityKeepsValid(r, id, displayName, aliases); }
      case AddNode(id, identity, _, _, _) => if Normalize(id).Ok? { NormalizeTwice(id); }
      case ChangeStatus(_, _) =>
      case AddSubscription(_, _, _, _, _) =>
    }
  }

  /** Once a name resolves to an identity it does so after every further operation. */
  lemma {:induction false} ResolutionStable(r: Roster, ops: seq<Op>, value: string)
    requires Valid(r) && Resolve(r, value).Ok?
    ensures Resolve(Run(r, ops), value) == Resolve(r, value) && Valid(Run(r, ops))
    decreases |ops|
  {
    if ops != [] {
      NextKeepsValid(r, ops[0]);
      StepKeepsResolution(r, ops[0], value);
      hide Next;
      hide Valid;
      ResolutionStable(Next(r, ops[0]), ops[1..], value);
    }
  }

  lemma StepKeepsResolution(r: Roster, op: Op, value: string)
    requires Valid(r) && Resolve(r, value).Ok?
    ensures Resolve(Next(r, op), value) == Resolve(r, value)
  {
    hide Normalize;
  }

  // ---- Which nodes a query selects ----

  datatype Query = Query(domain: string, intent: string, priority: int)

  predicate Live(n: Node, now: int) {
    && n.status in ROUTABLE_NODE_STATUSES
    && n.heartbeat.Some? && n.lease.Some?
    && n.heartbeat.value <= now < n.lease.value
  }

  // What subscriptions_for_domain raises, if anything.
  function QueryError(q: Query): Option<string> {
    if DomainKey(q.domain).Err? then Some(DomainKey(q.domain).error)
    else if !(0 <= q.priority <= 4) then Some("INVALID_PRIORITY")
    else if IntentKey(q.intent).Err? then Some(IntentKey(q.intent).error)
    else None
  }

  predicate Accepts(s: Subscription, q: Query)
    requires QueryError(q).None?
  {
    && s.enabled && s.domain == DomainKey(q.domain).value && q.priority <= s.minPriority
    && (s.intent.None? || s.intent == Some(IntentKey(q.intent).value))
  }

  predicate Subscribed(r: Roster, node: string, q: Query)
    requires QueryError(q).None?
  {
    exists s :: s in r.subscriptions && s.node == node && Accepts(s, q)
  }

  // The nodes among the candidates that are live and subscribed, in the candidates' order.
  function Select(r: Roster, candidates: seq<string>, q: Query, now: int): Result<seq<string>, string> {
    if candidates == [] then Ok([])
    else
      var before, last := Select(r, candidates[..|candidates| - 1], q, now), candidates[|candidates| - 1];
      if before.Err? then before
      else if last !in r.nodes then Err("UNKNOWN_NODE")
      else if !Live(r.nodes[last], now) then before
      else if QueryError(q).Some? then Err(QueryError(q).value)
      else if Subscribed(r, last, q) then Ok(before.value + [last])
      else before
  }

  // The nodes of each identity in turn.
  function NodesOfAll(r: Roster, identities: seq<string>): seq<string> {
    if identities == [] then []
    else NodesOfAll(r, identities[..|identities| - 1]) + NodesOf(r, identities[|identities| - 1])
  }

  // The identities of the names that resolve, each at its first mention; a name that does not is an error.
  function ResolveAll(r: Roster, names: seq<string>): Result<seq<string>, string> {
    if names == [] then Ok([])
    else
      var before, last := ResolveAll(r, names[..|names| - 1]), Resolve(r, names[|names| - 1]);
      if before.Err? then before
      else if last.Err? then Err(last.error)
      else if last.value in before.value then before
      else Ok(before.value + [last.value])
  }

  function RoutableSubscribers(r: Roster, q: Query, now: int, identities: Option<seq<string>>): Result<seq<string>, string> {
    if now < 0 then Err("INVALID_NODE_LEASE_TIME")
    else if identities.None? then Select(r, Sorted(r.nodes.Keys), q, now)
    else
      var resolved := ResolveAll(r, identities.value);
      if resolved.Err? then Err(resolved.error) else Select(r, NodesOfAll(r, resolved.value), q, now)
  }

  lemma {:induction false} SelectExact(r: Roster, candidates: seq<string>, q: Query, now: int)
    requires QueryError(q).None? && forall c :: c in candidates ==> c in r.nodes
    ensures Select(r, candidates, q, now).Ok?
    ensures forall n :: n in Select(r, candidates, q, now).value <==> n in candidates && Live(r.nodes[n], now) && Subscribed(r, n, q)
    ensures Subsequence(Select(r, candidates, q, now).value, candidates)
  {
    hide QueryError;
    hide Live;
    hide Subscribed;
    if candidates == [] {
      assert Picks([], candidates, []);
    } else {
      var init, last := candidates[..|candidates| - 1], candidates[|candidates| - 1];
      SelectExact(r, init, q, now);
      var before := Select(r, init, q, now).value;
      var at: seq<nat> :| Picks(before, init, at);
      assert candidates == init + [last];
      if Live(r.nodes[last], now) && Subscribed(r, last, q) {
        var more: seq<nat> := at + [|init|];
        assert Picks(before + [last], candidates, more);
      } else {
        assert Picks(before, candidates, at);
      }
    }
  }

  // part[i] is whole[at[i]], at ever later places.
  predicate Picks(part: seq<string>, whole: seq<string>, at: seq<nat>) {
    && |at| == |part|
    && (forall i :: 0 <= i < |at| ==> at[i] < |whole| && part[i] == whole[at[i]])
    && (forall i, j :: 0 <= i < j < |at| ==> at[i] < at[j])
  }

  ghost predicate Subsequence(part: seq<string>, whole: seq<string>) {
    exists at: seq<nat> :: Picks(part, whole, at)
  }

  // ---- The registry object ----

  class IdentityRegistry {
    var identities: map<string, Identity>
    var aliases: map<string, string>
    var nodes: map<string, Node>
    var subscriptions: seq<Subscription>

    constructor ()
      ensures View() == EMPTY
    {
      identities, aliases, nodes, subscriptions := map[], map[], map[], [];
    }

    function View(): Roster
      reads this
    {
      Roster(identities, aliases, nodes, subscriptions)
    }

    method RegisterIdentity(id: string, displayName: string, names: seq<string>) returns (r: Result<string, string>)
      requires Valid(View())
      modifies this
      ensures Valid(View()) && View() == Next(old(View()), AddIdentity(id, displayName, names))
      ensures r == if Exec(old(View()), AddIdentity(id, displayName, names)).Ok? then Normalize(id) else Err(Exec(old(View()), AddIdentity(id, displayName, names)).error)
    {
      hide Valid;
      hide Normalize;
      NextKeepsValid(View(), AddIdentity(id, displayName, names));
      var canonical := Normalize(id);
      if canonical.Err? { return canonical; }
      if MG.Strip(displayName) == [] { return Err("DISPLAY_NAME_REQUIRED"); }
      var normalized := [];
      for i := 0 to |names|
        invariant NormalAliases(canonical.value, names[..i]) == Ok(normalized)
      {
        assert names[..i + 1][..i] == names[..i];
        var name := Normalize(names[i]);
        if name.Err? || name.value == canonical.value || name.value in normalized {
          AliasErrorStays(canonical.value, names, i + 1);
          return Err(if name.Err? then name.error else "ALIAS_COLLISION");
        }
        normalized := normalized + [name.value];
      }
      assert names[..|names|] == names;
      if canonical.value in identities || canonical.value in aliases { return Err("IDENTITY_COLLISION"); }
      if exists n :: n in normalized && (n in identities || n in aliases) { return Err("ALIAS_COLLISION"); }
      identities := identities[canonical.value := Identity(canonical.value, MG.Strip(displayName), normalized)];
      aliases := WithAliases(aliases, normalized, canonical.value);
      r := canonical;
    }

    method SetNodeStatus(id: string, status: NodeStatus) returns (r: Result<Node, string>)
      requires Valid(View())
      modifies this`nodes
      ensures Valid(View()) && View() == Next(old(View()), ChangeStatus(id, status))
      ensures r.Ok? <==> Exec(old(View()), ChangeStatus(id, status)).Ok?
      ensures r.Ok? ==> r.value.id in nodes && nodes[r.value.id] == r.value && r.value.status == status
    {
      NodesKnowTheirId(View());
      hide Valid;
      hide Normalize;
      NextKeepsValid(View(), ChangeStatus(id, status));
      var key := Normalize(id);
      if key.Err? { return Err(key.error); }
      if key.value !in nodes { return Err("UNKNOWN_NODE"); }
      var updated := nodes[key.value].(status := status);
      nodes := nodes[updated.id := updated];
      r := Ok(updated);
    }

    // One atomic snapshot: nothing changes while the nodes are chosen.
    method RoutableSubscriberNodeIds(q: Query, now: int, named: Option<seq<string>>) returns (r: Result<seq<string>, string>)
      ensures r == RoutableSubscribers(View(), q, now, named)
    {
      if now < 0 { return Err("INVALID_NODE_LEASE_TIME"); }
      var candidates := [];
      if named.None? {
        candidates := Sorted(nodes.Keys);
      } else {
        var ordered := [];
        for i := 0 to |named.value|
          invariant ResolveAll(View(), named.value[..i]) == Ok(ordered)
        {
          assert named.value[..i + 1][..i] == named.value[..i];
          var canonical := Resolve(View(), named.value[i]);
          if canonical.Err? {
            ResolveErrorStays(View(), named.value, i + 1);
            return Err(canonical.error);
          }
          if canonical.value !in ordered { ordered := ordered + [canonical.value]; }
        }
        assert named.value[..|named.value|] == named.value;
        for i := 0 to |ordered|
          invariant candidates == NodesOfAll(View(), ordered[..i])
        {
          assert ordered[..i + 1][..i] == ordered[..i];
          candidates := candidates + NodesOf(View(), ordered[i]);
        }
        assert ordered[..|ordered|] == ordered;
      }
      r := SelectFrom(candidates, q, now);
    }

    method SelectFrom(candidates: seq<string>, q: Query, now: int) returns (r: Result<seq<string>, string>)
      ensures r == Select(View(), candidates, q, now)
    {
      var recipients := [];
      for i := 0 to |candidates|
        invariant Select(View(), candidates[..i], q, now) == Ok(recipients)
      {
        assert candidates[..i + 1][..i] == candidates[..i];
        var n := candidates[i];
        if n !in nodes || (Live(nodes[n], now) && QueryError(q).Some?) {
          SelectErrorStays(View(), candidates, q, now, i + 1);
          return Err(if n !in nodes then "UNKNOWN_NODE" else QueryError(q).value);
        }
        if Live(nodes[n], now) && Subscribed(View(), n, q) { recipients := recipients + [n]; }
      }
      assert candidates[..|candidates|] == candidates;
      r := Ok(recipients);
    }
  }

  lemma {:induction false} AliasErrorStays(canonical: string, aliases: seq<string>, k: nat)
    requires k <= |aliases| && NormalAliases(canonical, aliases[..k]).Err?
    ensures NormalAliases(canonical, aliases) == NormalAliases(canonical, aliases[..k])
    decreases |aliases|
  {
    if k == |aliases| {
      assert aliases[..k] == aliases;
    } else {
      assert aliases[..|aliases| - 1][..k] == aliases[..k];
      AliasErrorStays(canonical, aliases[..|aliases| - 1], k);
    }
  }

  lemma {:induction false} ResolveErrorStays(r: Roster, names: seq<string>, k: nat)
    requires k <= |names| && ResolveAll(r, names[..k]).Err?
    ensures ResolveAll(r, names) == ResolveAll(r, names[..k])
    decreases |names|
  {
    if k == |names| {
      assert names[..k] == names;
    } else {
      assert names[..|names| - 1][..k] == names[..k];
      ResolveErrorStays(r, names[..|names| - 1], k);
    }
  }

  lemma {:induction false} SelectErrorStays(r: Roster, candidates: seq<string>, q: Query, now: int, k: nat)
    requires k <= |candidates| && Select(r, candidates[..k], q, now).Err?
    ensures Select(r, candidates, q, now) == Select(r, candidates[..k], q, now)
    decreases |candidates|
  {
    if k == |candidates| {
      assert candidates[..k] == candidates;
    } else {
      assert candidates[..|candidates| - 1][..k] == candidates[..k];
      SelectErrorStays(r, candidates[..|candidates| - 1], q, now, k);
    }
  }
}
