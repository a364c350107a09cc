/** `insert_tickets` and `main`: map the fetched records, write them in one
    transaction, and skip the write entirely when nothing was fetched. */
module Sync {
  import opened Wrappers
  import opened PyJson
  import opened Paginator
  import opened FieldMapper
  import opened Entities
  import opened Sink

  /** Every record mapped by the column table `cols`; one that raises ends
      the whole batch. */
  function MapAll(cols: seq<Column>, tickets: seq<Json>): (r: Py<seq<Row>>)
    ensures r.Returns? <==> forall i :: 0 <= i < |tickets| ==> Flatten(cols, tickets[i]).Returns?
    ensures r.Returns? ==> |r.value| == |tickets|
    ensures r.Returns? ==> forall i :: 0 <= i < |tickets| ==> Flatten(cols, tickets[i]) == Returns(r.value[i])
  {
    if |tickets| == 0 then Returns([])
    else
      var tail := tickets[1..];
      assert forall i :: 1 <= i < |tickets| ==> tail[i - 1] == tickets[i];
      match Flatten(cols, tickets[0])
      case Raises => Raises
      case Returns(row) =>
        match MapAll(cols, tail)
        case Raises => Raises
        case Returns(rows) => Returns([row] + rows)
  }

  /** The committed table and the count `insert_tickets` logs. */
  datatype Committed = Committed(table: Table, count: nat)

  /** What `insert_tickets` leaves behind.  A record that raises while being
      mapped escapes before `conn.commit()`, so nothing of the batch is
      committed; otherwise every row is written in order and the count is
      the batch length, refused rows included. */
  function Inserted(cols: seq<Column>, table: Table, rejects: Row -> bool, tickets: seq<Json>): (r: Py<Committed>)
    ensures r.Raises? <==> exists i :: 0 <= i < |tickets| && Flatten(cols, tickets[i]).Raises?
    ensures r.Returns? ==> r.value.count == |tickets|
  {
    match MapAll(cols, tickets)
    case Raises => Raises
    case Returns(rows) => Returns(Committed(Upsert(table, rejects, rows), |tickets|))
  }

  /** `insert_tickets(conn, tickets)`: the per-record loop. */
  method InsertTickets(cols: seq<Column>, table: Table, rejects: Row -> bool, tickets: seq<Json>)
    returns (r: Py<Committed>)
    ensures r == Inserted(cols, table, rejects, tickets)
  {
    var current := table;
    ghost var rows: seq<Row> := [];
    for i := 0 to |tickets|
      invariant |rows| == i
      invariant forall j :: 0 <= j < i ==> Flatten(cols, tickets[j]) == Returns(rows[j])
      invariant current == Upsert(table, rejects, rows)
    {
      var mapped := Flatten(cols, tickets[i]);
      if mapped.Raises? {
        return Raises;
      }
      UpsertSnoc(table, rejects, rows, mapped.value);
      current := Write(current, rejects, mapped.value);
      rows := rows + [mapped.value];
    }
    assert MapAll(cols, tickets).value == rows;
    r := Returns(Committed(current, |tickets|));
  }

  /** How one run of a script ends. */
  datatype RunOutcome = Crashed | NothingToSync | Synced(table: Table, count: nat)

  /** `main(limit_pages=limit)` for entity `e`, given the API's answers and
      the table before the run.  A TypeError in the page loop or a record
      that cannot be mapped crashes the run with nothing committed; an empty
      fetch skips the insert step. */
  function Run(e: Entity, rs: seq<Response>, limit: Option<int>, table: Table, rejects: Row -> bool): (o: RunOutcome)
    ensures var f := Fetched(rs, Wrapping(e), limit);
            o == NothingToSync <==> f.stop != NotIterable && |f.records| == 0
    ensures var f := Fetched(rs, Wrapping(e), limit);
            o == Crashed <==> f.stop == NotIterable || MapAll(Columns(e), f.records).Raises?
    ensures var f := Fetched(rs, Wrapping(e), limit);
            o.Synced? ==> o.count == |f.records| > 0 && MapAll(Columns(e), f.records).Returns?
                          && o.table == Upsert(table, rejects, MapAll(Columns(e), f.records).value)
  {
    var f := Fetched(rs, Wrapping(e), limit);
    if f.stop == NotIterable then Crashed
    else if |f.records| == 0 then NothingToSync
    else match Inserted(Columns(e), table, rejects, f.records)
      case Raises => Crashed
      case Returns(c) => Synced(c.table, c.count)
  }

  /** A second run against the same answers leaves the table as the first
      one left it: repeated runs converge. */
  lemma RunConverges(e: Entity, rs: seq<Response>, limit: Option<int>, table: Table, rejects: Row -> bool)
    ensures var first := Run(e, rs, limit, table, rejects);
            first.Synced? ==> Run(e, rs, limit, first.table, rejects) == first
  {
    if Run(e, rs, limit, table, rejects).Synced? {
      var f := Fetched(rs, Wrapping(e), limit);
      UpsertIdempotent(table, rejects, MapAll(Columns(e), f.records).value);
    }
  }

  /** For tickets and feedback, a first page that is a non-empty dict
      without `"data"` crashes the run: its keys become the first records,
      and a string has no `.get`. */
  lemma BareDictFirstPageCrashes(e: Entity, fs: seq<Field>, more: seq<Response>, limit: Option<int>,
                                 table: Table, rejects: Row -> bool)
    requires e != Apontamentos
    requires |fs| > 0 && !HasKey(fs, "data")
    ensures Run(e, [Response(200, Some(Obj(fs)))] + more, limit, table, rejects) == Crashed
  {
    var rs := [Response(200, Some(Obj(fs)))] + more;
    var steps := Classify(rs, Wrapping(e));
    DictWithoutDataYieldsKeys(fs);
    StepAtClassify(rs, Wrapping(e), 1);
    LoopUnfold(steps, limit, 1);
    var f := Fetched(rs, Wrapping(e), limit);
    var keys := KeyStrings(Keys(fs));
    assert f.records[..|keys|] == keys;
    assert f.records[0] == keys[0];
    assert Flatten(Columns(e), f.records[0]) == Raises;
  }

  /** A batch of one record whose primary key is null is counted but not
      stored: the logged count is 1 and the table is unchanged. */
  lemma NullKeyCountedNotStored(e: Entity, table: Table, rejects: Row -> bool, t: Json)
    requires MapRecord(e, t).Returns?
    requires GetOrNull(t.fields, KeyName(e)) == Null
    ensures Inserted(Columns(e), table, rejects, [t]) == Returns(Committed(table, 1))
  {
    var row := MapRecord(e, t).value;
    assert MapAll(Columns(e), [t]).value == [row];
    RefusedRowLeavesTable(table, rejects, row);
  }
}
