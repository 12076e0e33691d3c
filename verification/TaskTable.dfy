/** The tasks table: a primary key on id, a unique index on idempotency_key over the rows
    where it is not NULL, column defaults for status and created_at, and insert as the only
    statement that changes it. */
module TaskTable {
  import opened Results
  import opened Domain

  datatype Row = Row(
    id: Uuid, key: Option<string>, payload: Payload, status: Status, createdAt: Time, handler: string)

  datatype CreateTaskParams = CreateTaskParams(
    id: Uuid, key: Option<string>, payload: Payload, handler: string)

  type Table = map<Uuid, Row>

  function ToRow(t: Task, key: Option<string>): CreateTaskParams {
    CreateTaskParams(t.id, key, t.payload, t.handler)
  }

  function ToDomain(row: Row): Task {
    Task(row.id, row.status, row.handler, row.payload, row.createdAt)
  }

  /** What the INSERT stores: status and created_at come from the column defaults. */
  function Defaulted(arg: CreateTaskParams, dbNow: Time): Row {
    Row(arg.id, arg.key, arg.payload, STATUS_PENDING, dbNow, arg.handler)
  }

  /** Two rows that one of the unique indexes refuses to hold together. */
  predicate Clash(id: Uuid, key: Option<string>, other: Row) {
    id == other.id || (key.Some? && key == other.key)
  }

  predicate KeyTaken(rows: Table, key: Option<string>) {
    key.Some? && exists id :: id in rows && rows[id].key == key
  }

  /** The condition under which Postgres answers an INSERT with SQLSTATE 23505. */
  predicate Collides(rows: Table, id: Uuid, key: Option<string>) {
    id in rows || KeyTaken(rows, key)
  }

  /** `WHERE idempotency_key = $1` */
  ghost function FindByKey(rows: Table, k: string): (r: Option<Row>)
    ensures r.Some? <==> KeyTaken(rows, Some(k))
    ensures r.Some? ==> exists id :: id in rows && rows[id] == r.value && rows[id].key == Some(k)
  {
    if KeyTaken(rows, Some(k)) then
      var id :| id in rows && rows[id].key == Some(k);
      Some(rows[id])
    else None
  }

  ghost predicate UniqueKeys(rows: Table) {
    forall i, j :: i in rows && j in rows && rows[i].key.Some? && rows[i].key == rows[j].key ==> i == j
  }

  /** Every row is filed under its own id and still has its default status. */
  ghost predicate RowsPending(rows: Table) {
    forall i :: i in rows ==> rows[i].id == i && rows[i].status == STATUS_PENDING
  }

  ghost predicate TableOk(rows: Table) {
    UniqueKeys(rows) && RowsPending(rows)
  }

  /** `later` still holds every row of `rows`, unchanged. */
  ghost predicate Extends(rows: Table, later: Table) {
    forall i :: i in rows ==> i in later && later[i] == rows[i]
  }

  lemma InsertKeepsTable(rows: Table, row: Row)
    requires TableOk(rows) && !Collides(rows, row.id, row.key) && row.status == STATUS_PENDING
    ensures TableOk(rows[row.id := row]) && Extends(rows, rows[row.id := row])
  {
    assert forall i :: i in rows && row.key.Some? ==> rows[i].key != row.key;
  }

  /** The one row a non-NULL key can have. */
  lemma FindByKeyIs(rows: Table, id: Uuid, k: string)
    requires UniqueKeys(rows) && id in rows && rows[id].key == Some(k)
    ensures FindByKey(rows, k) == Some(rows[id])
  {
  }
}
