/** The `REPLACE INTO` sink: a table keyed on its primary-key column, each
    row of a batch either refused by the database or replacing the whole
    entry for its key, in batch order. */
module Sink {
  import opened Wrappers
  import opened PyJson
  import opened FieldMapper

  /** A table: primary-key value to the full stored row. */
  type Table = map<Json, Row>

  /** The primary key of a row: its first column (`ticketKey`,
      `requestUUID`, `ticketId`). */
  function KeyOf(row: Row): Json {
    if |row| == 0 then Null else row[0]
  }

  /** Whether `cursor.execute` raises for `row`.  A null primary key always
      does (the key column is NOT NULL); `rejects` stands for every other
      constraint the database enforces and the scripts cannot see. */
  predicate Fails(rejects: Row -> bool, row: Row) {
    KeyOf(row) == Null || rejects(row)
  }

  /** One `REPLACE INTO`: a refused row is skipped (the error is logged);
      otherwise the row becomes the whole entry for its key. */
  function Write(table: Table, rejects: Row -> bool, row: Row): (t: Table)
    ensures Fails(rejects, row) ==> t == table
    ensures !Fails(rejects, row) ==> t.Keys == table.Keys + {KeyOf(row)} && t[KeyOf(row)] == row
    ensures forall k :: k != KeyOf(row) ==> (k in t <==> k in table)
    ensures forall k :: k in table && k != KeyOf(row) ==> t[k] == table[k]
  {
    if Fails(rejects, row) then table else table[KeyOf(row) := row]
  }

  /** The per-row loop of `insert_tickets`: every row written in batch
      order. */
  function Upsert(table: Table, rejects: Row -> bool, rows: seq<Row>): Table
    decreases |rows|
  {
    if |rows| == 0 then table else Upsert(Write(table, rejects, rows[0]), rejects, rows[1..])
  }

  /** Reference definition: the last row of the batch that the database
      accepts and that carries key `k`. */
  function LastWritten(rejects: Row -> bool, rows: seq<Row>, k: Json): (r: Option<Row>)
    ensures r.Some? ==> r.value in rows && KeyOf(r.value) == k && !Fails(rejects, r.value)
    ensures r.None? <==> forall i :: 0 <= i < |rows| ==> Fails(rejects, rows[i]) || KeyOf(rows[i]) != k
    ensures r.Some? ==> exists i :: 0 <= i < |rows| && rows[i] == r.value
                          && forall j :: i < j < |rows| ==> Fails(rejects, rows[j]) || KeyOf(rows[j]) != k
  {
    if |rows| == 0 then None
    else
      var last := rows[|rows| - 1];
      if !Fails(rejects, last) && KeyOf(last) == k then Some(last)
      else
        var init := rows[..|rows| - 1];
        assert forall i :: 0 <= i < |init| ==> init[i] == rows[i];
        LastWritten(rejects, init, k)
  }

  /** Scanning from the back, the first row is consulted last. */
  lemma {:induction false} LastWrittenCons(rejects: Row -> bool, rows: seq<Row>, k: Json)
    requires |rows| > 0
    ensures var rest := LastWritten(rejects, rows[1..], k);
            LastWritten(rejects, rows, k)
            == if rest.Some? then rest
               else if !Fails(rejects, rows[0]) && KeyOf(rows[0]) == k then Some(rows[0])
               else None
    decreases |rows|
  {
    var n := |rows|;
    if n > 1 {
      var init := rows[..n - 1];
      if LastRowHits(rejects, rows, k) {
        LastWrittenHitLast(rejects, rows, k);
      } else {
        LastWrittenMissLast(rejects, rows, k);
        LastWrittenCons(rejects, init, k);
      }
    } else {
      assert rows[1..] == [];
      assert rows[..0] == [];
    }
  }

  /** The batch's last row is accepted and carries key `k`. */
  predicate LastRowHits(rejects: Row -> bool, rows: seq<Row>, k: Json)
    requires |rows| > 0
  {
    !Fails(rejects, rows[|rows| - 1]) && KeyOf(rows[|rows| - 1]) == k
  }

  /** When the last row is a hit, both scans stop there, with or without
      the first row. */
  lemma LastWrittenHitLast(rejects: Row -> bool, rows: seq<Row>, k: Json)
    requires |rows| > 1 && LastRowHits(rejects, rows, k)
    ensures LastWritten(rejects, rows, k) == Some(rows[|rows| - 1])
    ensures LastWritten(rejects, rows[1..], k) == Some(rows[|rows| - 1])
  {
    var tail := rows[1..];
    assert tail[|tail| - 1] == rows[|rows| - 1];
    assert LastRowHits(rejects, tail, k);
  }

  /** When the last row is not a hit, both scans go on with the rows before
      it. */
  lemma LastWrittenMissLast(rejects: Row -> bool, rows: seq<Row>, k: Json)
    requires |rows| > 1 && !LastRowHits(rejects, rows, k)
    ensures LastWritten(rejects, rows, k) == LastWritten(rejects, rows[..|rows| - 1], k)
    ensures LastWritten(rejects, rows[1..], k) == LastWritten(rejects, rows[..|rows| - 1][1..], k)
  {
    var tail := rows[1..];
    assert tail[|tail| - 1] == rows[|rows| - 1];
    assert tail[..|tail| - 1] == rows[..|rows| - 1][1..];
    assert !LastRowHits(rejects, tail, k);
  }

  /** Last write wins, whole row: after the batch, key `k` holds the last
      accepted row with that key; a key no accepted row carries keeps its
      old entry, or stays absent. */
  lemma {:induction false} UpsertLastWins(table: Table, rejects: Row -> bool, rows: seq<Row>, k: Json)
    ensures var t := Upsert(table, rejects, rows);
            var w := LastWritten(rejects, rows, k);
            && (k in t <==> w.Some? || k in table)
            && (w.Some? ==> t[k] == w.value)
            && (w.None? && k in table ==> t[k] == table[k])
    decreases |rows|
  {
    if |rows| > 0 {
      UpsertLastWins(Write(table, rejects, rows[0]), rejects, rows[1..], k);
      LastWrittenCons(rejects, rows, k);
    }
  }

  /** Replaying a batch changes nothing: the table converges. */
  lemma UpsertIdempotent(table: Table, rejects: Row -> bool, rows: seq<Row>)
    ensures Upsert(Upsert(table, rejects, rows), rejects, rows) == Upsert(table, rejects, rows)
  {
    var once := Upsert(table, rejects, rows);
    var twice := Upsert(once, rejects, rows);
    forall k
      ensures (k in twice <==> k in once) && (k in once ==> twice[k] == once[k])
    {
      UpsertLastWins(table, rejects, rows, k);
      UpsertLastWins(once, rejects, rows, k);
    }
  }

  /** Writing one row more extends the batch at its end. */
  lemma {:induction false} UpsertSnoc(table: Table, rejects: Row -> bool, rows: seq<Row>, row: Row)
    ensures Upsert(table, rejects, rows + [row]) == Write(Upsert(table, rejects, rows), rejects, row)
    decreases |rows|
  {
    if |rows| == 0 {
      assert [row][1..] == [];
    } else {
      assert (rows + [row])[1..] == rows[1..] + [row];
      UpsertSnoc(Write(table, rejects, rows[0]), rejects, rows[1..], row);
    }
  }

  /** A batch whose only row is refused -- a null primary key, say --
      leaves the table as it was. */
  lemma RefusedRowLeavesTable(table: Table, rejects: Row -> bool, row: Row)
    requires Fails(rejects, row)
    ensures Upsert(table, rejects, [row]) == table
  {
    assert [row][1..] == [];
  }
}
