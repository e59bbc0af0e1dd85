/** Projection of Bus messages whose ids collide (project_bus_message_v1): the first content keeps the plain id, later
    contents get an id qualified by their hash. */
module Collision {
  import opened Wrappers
  import opened Text

  datatype Row = Row(hash: string, domain: string, sender: string, declaredId: string)

  // conflicts holds the MESSAGE_PROJECTION_CONFLICT events, by declared id and incoming hash.
  datatype Table = Table(rows: map<string, Row>, conflicts: set<(string, string)>)

  datatype Call = Call(messageId: string, sender: string, hash: string)

  datatype Outcome = Inserted | Idempotent | ConflictInserted(id: string) | ConflictIdempotent(id: string)

  predicate IsHash(hash: string) {
    |hash| == 64 && forall i :: 0 <= i < 64 ==> '0' <= hash[i] <= '9' || 'a' <= hash[i] <= 'f'
  }

  function ShortId(c: Call): string
    requires IsHash(c.hash)
  {
    c.messageId + "~" + c.hash[..16]
  }

  function FullId(c: Call): string {
    c.messageId + "~" + c.hash
  }

  function NewRow(c: Call): Row {
    Row(c.hash, "chat_bus", Fold(Trim(c.sender)), c.messageId)
  }

  function CallError(c: Call): Option<string> {
    if Trim(c.messageId) == "" then Some("MESSAGE_ID_REQUIRED")
    else if Trim(c.sender) == "" then Some("SENDER_REQUIRED")
    else if !IsHash(c.hash) then Some("INVALID_CONTENT_HASH")
    else None
  }

  // The row under the plain id is the message itself.
  predicate PlainIsOwn(t: Table, c: Call) {
    c.messageId in t.rows && t.rows[c.messageId].hash == c.hash && t.rows[c.messageId].domain == "chat_bus"
  }

  predicate Holds(t: Table, id: string, hash: string) {
    id in t.rows && t.rows[id].hash == hash
  }

  predicate TakenByOther(t: Table, id: string, hash: string) {
    id in t.rows && t.rows[id].hash != hash
  }

  function InsertQualified(t: Table, c: Call, id: string): Table {
    t.(rows := t.rows[id := NewRow(c)], conflicts := t.conflicts + {(c.messageId, c.hash)})
  }

  function Project(t: Table, c: Call): (Table, Result<Outcome, string>) {
    if CallError(c).Some? then (t, Err(CallError(c).value))
    else if c.messageId !in t.rows then (t.(rows := t.rows[c.messageId := NewRow(c)]), Ok(Inserted))
    else if PlainIsOwn(t, c) then (t, Ok(Idempotent))
    else if ShortId(c) !in t.rows then (InsertQualified(t, c, ShortId(c)), Ok(ConflictInserted(ShortId(c))))
    else if Holds(t, ShortId(c), c.hash) then (t, Ok(ConflictIdempotent(ShortId(c))))
    else if FullId(c) !in t.rows then (InsertQualified(t, c, FullId(c)), Ok(ConflictInserted(FullId(c))))
    else if Holds(t, FullId(c), c.hash) then (t, Ok(ConflictIdempotent(FullId(c))))
    else (t, Err("QUALIFIED_MESSAGE_ID_COLLISION"))
  }

  // Rows also come from elsewhere, of any domain and under any unused id.
  datatype Op = ProjectOp(call: Call) | ForeignInsert(id: string, row: Row)

  function Next(t: Table, op: Op): Table {
    match op
    case ProjectOp(c) => Project(t, c).0
    case ForeignInsert(id, row) => if id in t.rows then t else t.(rows := t.rows[id := row])
  }

  function Run(t: Table, ops: seq<Op>): Table
    decreases |ops|
  {
    if ops == [] then t else Run(Next(t, ops[0]), ops[1..])
  }

  // Rows and conflict events stay as they are.
  ghost predicate Grown(t: Table, u: Table) {
    && (forall id :: id in t.rows ==> id in u.rows && u.rows[id] == t.rows[id])
    && t.conflicts <= u.conflicts
  }

  lemma {:induction false} RowsOnlyGrow(t: Table, ops: seq<Op>)
    ensures Grown(t, Run(t, ops))
    decreases |ops|
  {
    if ops != [] {
      var u := Next(t, ops[0]);
      assert Grown(t, u);
      RowsOnlyGrow(u, ops[1..]);
    }
  }

  // Where the content of a projected message is kept.
  predicate Kept(t: Table, c: Call) {
    || PlainIsOwn(t, c)
    || (c.messageId in t.rows && IsHash(c.hash)
        && (Holds(t, ShortId(c), c.hash) || (TakenByOther(t, ShortId(c), c.hash) && Holds(t, FullId(c), c.hash))))
  }

  lemma ProjectedIsKept(t: Table, c: Call)
    requires Project(t, c).1.Ok?
    ensures Kept(Project(t, c).0, c)
    ensures Project(t, c).1.value.ConflictInserted? ==> (c.messageId, c.hash) in Project(t, c).0.conflicts
  {
    Qualified(c);
    hide Fold;
    hide Trim;
  }

  // A qualified id is never the plain one, and the two differ in length.
  lemma Qualified(c: Call)
    requires IsHash(c.hash)
    ensures |c.messageId| < |ShortId(c)| < |FullId(c)|
  {
  }

  lemma KeptForGood(t: Table, u: Table, c: Call)
    requires Kept(t, c) && Grown(t, u)
    ensures Kept(u, c)
  {
  }

  lemma KeptIsIdempotent(t: Table, c: Call)
    requires Kept(t, c) && CallError(c).None?
    ensures Project(t, c).0 == t && Project(t, c).1.Ok?
    ensures Project(t, c).1.value.Idempotent? || Project(t, c).1.value.ConflictIdempotent?
  {
    hide Trim;
  }

  /** A call that returned has a row with its hash, under one of its three ids, in every later state; and made again
      it reports so and adds nothing. */
  lemma ReplayIsIdempotent(t: Table, c: Call, ops: seq<Op>)
    requires Project(t, c).1.Ok?
    ensures var u := Run(Project(t, c).0, ops);
            && (Holds(u, c.messageId, c.hash) || (IsHash(c.hash) && Holds(u, ShortId(c), c.hash)) || Holds(u, FullId(c), c.hash))
            && Project(u, c).0 == u && Project(u, c).1.Ok?
            && (Project(u, c).1.value.Idempotent? || Project(u, c).1.value.ConflictIdempotent?)
  {
    var s := Project(t, c).0;
    ProjectedIsKept(t, c);
    RowsOnlyGrow(s, ops);
    KeptForGood(s, Run(s, ops), c);
    hide Trim;
    hide Fold;
    KeptIsIdempotent(Run(s, ops), c);
  }

  /** A well-formed call fails exactly when the plain id, the short and the full qualified id are all taken by others. */
  lemma FailsOnlyWhenAllTaken(t: Table, c: Call)
    requires CallError(c).None?
    ensures Project(t, c).1.Err? <==>
              c.messageId in t.rows && !PlainIsOwn(t, c) && TakenByOther(t, ShortId(c), c.hash) && TakenByOther(t, FullId(c), c.hash)
  {
    hide Trim;
  }

  class MessageTable {
    var rows: map<string, Row>
    var conflicts: set<(string, string)>

    constructor ()
      ensures Contents() == Table(map[], {})
    {
      rows, conflicts := map[], {};
    }

    function Contents(): Table
      reads this
    {
      Table(rows, conflicts)
    }

    method ProjectBusMessage(c: Call) returns (r: Result<Outcome, string>)
      modifies this
      ensures (Contents(), r) == Project(old(Contents()), c)
      ensures Grown(old(Contents()), Contents())
      ensures r.Ok? ==> Kept(Contents(), c)
    {
      if Project(Contents(), c).1.Ok? { ProjectedIsKept(Contents(), c); }
      hide Trim;
      hide Fold;
      if CallError(c).Some? { return Err(CallError(c).value); }
      if c.messageId in rows {
        if rows[c.messageId].hash == c.hash && rows[c.messageId].domain == "chat_bus" { return Ok(Idempotent); }
        var qualified := ShortId(c);
        if qualified in rows {
          if rows[qualified].hash == c.hash { return Ok(ConflictIdempotent(qualified)); }
          qualified := FullId(c);
          if qualified in rows {
            if rows[qualified].hash == c.hash { return Ok(ConflictIdempotent(qualified)); }
            return Err("QUALIFIED_MESSAGE_ID_COLLISION");
          }
        }
        if (c.messageId, c.hash) !in conflicts { conflicts := conflicts + {(c.messageId, c.hash)}; }
        assert conflicts == old(conflicts) + {(c.messageId, c.hash)};
        rows := rows[qualified := NewRow(c)];
        return Ok(ConflictInserted(qualified));
      }
      rows := rows[c.messageId := NewRow(c)];
      r := Ok(Inserted);
    }
  }
}
