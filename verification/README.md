# Tickets-Sync core in Dafny

Tickets-Sync is three near-identical Python scripts. Each copies one kind of
record from the Acelerato help-desk API into a MySQL table:

- `chamados` (tickets, keyed on `ticketKey`);
- `apontamentos` (time entries, keyed on `requestUUID`);
- `feedbacks` (survey answers, keyed on `ticketId`).

Each script does three things:

1. `fetch_tickets` requests pages 1, 2, 3, … and unwraps each answer. It
   stops at the first failed, unusable or empty page, or at an optional
   page cap.
2. `insert_tickets` flattens every record into the table's fixed column
   list and writes it with `REPLACE INTO`. It commits once, at the end.
3. `main` skips the insert step when nothing was fetched.

The model is pure functions over decoded JSON values:

- `wrappers.dfy`: `Option`, and `Py<T>`, a result that either returns or
  raises an exception the script does not catch.
- `pyjson.dfy`: the Python semantics the scripts rely on:
  - truthiness;
  - `dict.get` on the dict `json.loads` builds, where the last duplicate
    member wins;
  - what `list.extend` appends: a list's items, a dict's keys or a string's
    characters, and a TypeError on anything else.
- `paginator.dfy`: the page loop. The HTTP side is a finite sequence of
  responses; every page past its end answers 200 with an empty list.
  - `PageStep` classifies one answer.
  - `Loop` is the loop as a recursion.
  - `FetchTickets` is the `while True` loop itself, proved equal to it.
  - `Taken` is an independent reference for the records collected.
- `field_mapper.dfy`: column tables made of three kinds of lookup rule:
  - a top-level `t.get(k)`;
  - a nested `(t.get(p) or {}).get(k)`;
  - a list-head `t[l][0].get(k)`.

  Also here: which record shapes make them raise.
- `entities.dfy`: the three column tables, in the order of each
  `REPLACE INTO` column list, and their per-table consequences.
- `sink.dfy`: the table as a map from primary key to the whole row.
  - A row whose key is null, or one the database refuses for a reason the
    scripts cannot see, is skipped and its error logged.
  - Every other row replaces the entry for its key.
  - `LastWritten` is a reference definition of the result.
- `sync.dfy`: `insert_tickets` and `main`. A record that raises while being
  mapped escapes before `conn.commit()`, so the run crashes and nothing of
  the batch is committed.

For tickets and feedback, a dict page without `"data"` is passed whole to
`extend`, which appends the dict's keys. Those keys become string "records",
and the first `t.get` on one of them crashes the run
(`Sync.BareDictFirstPageCrashes`).

## Model

| member | source | states |
|---|---|---|
| PyJson.Get | chamados/chamados.py:126 | A member lookup finds a value exactly when some member of the object carries that name |
| PyJson.GetFindsLast | chamados/chamados.py:126 | The value a lookup finds is that of the last member with that name; no later member has the name (duplicate keys: last one wins) |
| PyJson.Keys | chamados/chamados.py:144 | The keys of a decoded dict are exactly the names of its members, each once; there are none only for an empty dict |
| PyJson.Iterate | chamados/chamados.py:144 | `extend` accepts exactly lists, dicts and strings, and appends something iff the value is truthy. A list appends exactly its items, a string its characters one by one, and a dict each of its keys once, as strings |
| Paginator.Unwrap | chamados/chamados.py:131-138 | A list is its own record set. A dict with the envelope member (`"data"`, or `"content"` for time entries) gives that member. Without it, a dict stands for itself, or gives `[]` for time entries. Anything else has no record set |
| Paginator.PageStep | chamados/chamados.py:121-144 | A non-200 status stops with that code, checked before the body; an undecodable body stops. It stops as BadShape exactly when the body is neither list nor dict. Otherwise, with record set t: it stops as NoRecords iff t is falsy; a truthy iterable t yields exactly what `extend` appends from it; any other truthy t raises TypeError |
| Paginator.Loop | chamados/chamados.py:117-152 | The pages requested are consecutive from the starting page, at least one, and at most one past the last answered page |
| Paginator.LoopCharacterized | chamados/chamados.py:117-154 | Every page before the last continues the loop, the last does not, the records are the reference `Taken` of exactly the requested pages, and the stop reason is the last page's |
| Paginator.FetchTickets | chamados/chamados.py:108-154 | The imperative loop from page 1 returns exactly what the recursive page loop computes |
| Paginator.FirstStopDecides | chamados/chamados.py:117-154 | If pages 1..p-1 continue and page p does not, then pages 1..p are requested, the records are those of pages 1..p in order, and the stop reason is page p's |
| Paginator.NonOkStatusStops | chamados/chamados.py:121-123 | A status other than exactly 200 at page p ends the loop there without raising, keeping only the earlier pages' records |
| Paginator.UnusableBodyStops | chamados/chamados.py:125-138 | An undecodable body, or one that is neither list nor dict, ends the loop at that page and keeps the earlier records |
| Paginator.FalsyRecordsStop | chamados/chamados.py:140-142 | A falsy record set (empty list, null or empty `"data"`) ends the loop at that page and adds nothing |
| Paginator.DictWithoutDataYieldsKeys | chamados/chamados.py:134-144 | A non-empty dict without `"data"` is taken as a page whose records are its key strings, never as an empty page |
| Paginator.MissingContentStops | Apontamentos/apontamentos.py:127-135 | A time-entry dict whose `"content"` is missing or null ends the loop by emptiness |
| Paginator.EnvelopePageTakesItems | chamados/chamados.py:131-144 | A 200 dict page whose envelope member is a non-empty list takes exactly that list's items |
| Paginator.EnvelopePageThenEnd | chamados/chamados.py:117-154 | One enveloped page followed by the end of the data returns exactly the envelope's list, after requesting pages 1 and 2 |
| Paginator.PageCapBounds | chamados/chamados.py:147-149 | A positive page cap n bounds the number of pages requested by n |
| Paginator.PageCapIncludesLastPage | chamados/chamados.py:147-149 | When pages 1..n all yield records, cap n stops after page n, whose records are included |
| Paginator.NegativeCapOnePage | chamados/chamados.py:148 | A negative cap is truthy and below every page number, so exactly one page is requested |
| Paginator.ZeroCapIsNoCap | chamados/chamados.py:148 | A cap of 0 is falsy and behaves exactly like no cap |
| Paginator.RecordsThenEmptyPage | chamados/chamados.py:140-144 | Records on page 1 then an empty page 2 return exactly page 1's records, after requesting pages 1 and 2 |
| Paginator.ServerErrorKeepsFirstPage | chamados/chamados.py:121-123 | A 500 on page 2 keeps page 1's records and reports status 500 |
| FieldMapper.Resolve | chamados/chamados.py:169-176 | A rule raises exactly when its nested parent is a truthy non-dict, or its list head is not a dict |
| FieldMapper.ResolveAll | chamados/chamados.py:159-196 | A row is built iff every column's rule tolerates the record; it has one value per column, each the one its rule reads |
| FieldMapper.Flatten | chamados/chamados.py:159-196 | A record maps iff it is a dict and every rule tolerates it; the row has exactly one value per declared column |
| FieldMapper.AbsentSourceGivesNull | chamados/chamados.py:169-195 | A missing top-level key gives null; so does a falsy parent (null, {}, [], "", 0, false) for a nested or list-head column |
| FieldMapper.TopColumnIsLookup | chamados/chamados.py:160 | A direct column holds the top-level member of its key, null when absent |
| FieldMapper.NestedColumnReadsParent | chamados/chamados.py:174 | A nested column with a dict parent holds that dict's member, or null |
| FieldMapper.HeadColumnReadsFirst | Apontamentos/apontamentos.py:154-156 | A list-head column holds the member of the first element when the list is non-empty, null otherwise |
| FieldMapper.TopColumnsRead | Apontamentos/apontamentos.py:159-184 | A run of same-named direct columns holds the top-level lookups of those names |
| FieldMapper.NestedColumnsRead | chamados/chamados.py:169-173 | A run of nested columns over one parent holds that parent's named members when it is a dict, and nulls otherwise |
| FieldMapper.HeadColumnsRead | Feedbacks/feedbacks.py:141-148 | A run of list-head columns holds the given members of the list's first element, or nulls |
| FieldMapper.RaisesOnlyOnParents | chamados/chamados.py:169-193 | A table of direct and nested columns maps a record without raising iff it is a dict and each parent used is falsy or a dict |
| FieldMapper.RaisesOnlyOnHead | Feedbacks/feedbacks.py:141-142 | A table of direct and list-head columns over one list maps without raising iff the record is a dict and that list, if non-empty, starts with a dict |
| Entities.MapRecord | chamados/chamados.py:159-196 | A mapped record has exactly the table's width (36, 27, 15) and its key column holds the record's primary-key member; a non-dict raises |
| Entities.ChamadosShape | chamados/chamados.py:159-195 | Every ticket column is a direct lookup or a nested one over one of the eight parent objects |
| Entities.ChamadosDirectColumnsRead | chamados/chamados.py:160-195 | A mapped ticket's direct columns 0..8, 29, 30, 34 and 35 hold the ticket's top-level members of the same names, null when absent |
| Entities.ChamadosNestedColumnsRead | chamados/chamados.py:169-193 | For each of the eight nested objects, the ticket row's columns for it hold that object's named members when it is a dict, and nulls otherwise |
| Entities.ChamadosParentsUsed | chamados/chamados.py:169-191 | Each of the eight parent objects feeds at least one ticket column |
| Entities.ChamadosRaisesExactly | chamados/chamados.py:169-193 | A ticket maps without raising iff it is a dict and each of its eight nested objects is falsy or a dict |
| Entities.ChamadosFalsyParentGivesNulls | chamados/chamados.py:174-176 | When a ticket's nested object is absent, null or otherwise falsy, every column flattened from it is null |
| Entities.ChamadosNullOrganizacaoExample | chamados/chamados.py:160-174 | `{"ticketKey": 42, "organizacao": null}` maps to a row keyed 42 whose `organizacaoKey` is null |
| Entities.ApontamentosShape | Apontamentos/apontamentos.py:158-186 | The first 26 time-entry columns are same-named direct lookups, and the last is `link_href` from the head of `links` |
| Entities.ApontamentosColumnsRead | Apontamentos/apontamentos.py:153-186 | `link_href` is the first link's `href` or null; the other 26 columns are the top-level members of their names |
| Entities.ApontamentosRaisesExactly | Apontamentos/apontamentos.py:155-156 | A time entry maps without raising iff it is a dict whose `links`, if a non-empty list, starts with a dict |
| Entities.FeedbacksShape | Feedbacks/feedbacks.py:150-166 | Nine direct feedback columns, then six read from the head of `perguntas`; `statusPergunta` reads `"status"` |
| Entities.FeedbacksColumnsRead | Feedbacks/feedbacks.py:133-166 | The six question columns come from the first question, or are all null; the other nine are the top-level members of their names |
| Entities.FeedbacksRaisesExactly | Feedbacks/feedbacks.py:141-142 | A feedback maps without raising iff it is a dict whose `perguntas`, if a non-empty list, starts with a dict |
| Sink.Write | chamados/chamados.py:198-201 | A refused row leaves the table unchanged. Any other row becomes the whole entry for its key and adds that key. Every other key keeps its entry |
| Sink.LastWritten | chamados/chamados.py:158-201 | The reference result for a key is the LAST row of the batch that carries the key and is accepted; it is absent exactly when no accepted row carries the key |
| Sink.UpsertLastWins | chamados/chamados.py:158-203 | After a batch, a key holds the last accepted row carrying it; a key no accepted row carries keeps its old entry or stays absent |
| Sink.UpsertIdempotent | chamados/chamados.py:70-87 | Replaying a batch on the table it produced changes nothing |
| Sink.UpsertSnoc | chamados/chamados.py:158-201 | Writing one more row extends the batch at its end |
| Sink.RefusedRowLeavesTable | chamados/chamados.py:198-201 | A batch whose only row is refused, such as one with a null key, leaves the table as it was |
| Sync.MapAll | chamados/chamados.py:158-196 | A batch maps iff every record maps; the rows are the records' rows, in order |
| Sync.Inserted | chamados/chamados.py:156-205 | Insertion raises exactly when some record cannot be mapped; otherwise the logged count is the batch length, refused rows included |
| Sync.InsertTickets | chamados/chamados.py:156-205 | The per-record loop commits the in-order upsert of the mapped rows, or raises with nothing committed |
| Sync.Run | chamados/chamados.py:207-217 | The run crashes exactly when `extend` raised or some fetched record cannot be mapped. Nothing is written exactly when the fetch ends cleanly with no records. A sync commits the upsert of all fetched rows and counts them |
| Sync.RunConverges | chamados/chamados.py:207-217 | When a run syncs, a second run against the same answers ends exactly as the first: same table, same count |
| Sync.BareDictFirstPageCrashes | chamados/chamados.py:134-160 | For tickets and feedback, a non-empty first page that is a dict without `"data"` crashes the run |
| Sync.NullKeyCountedNotStored | chamados/chamados.py:198-205 | A one-record batch with a null primary key is counted as 1 and leaves the table unchanged |

## Left out

- Environment loading, `DB_CONFIG`, the API URLs and credentials, and logging are not modelled. They only parameterise I/O or are output.
- The HTTP request is not modelled: URL, auth, headers and the query parameters (page size, status filter, minimum dates). Each page's answer is an input `Response`.
- Database connection, `ensure_table_exists` (CREATE TABLE), `conn.ping(reconnect=True)`, `cursor.close` and `conn.close` are not modelled. Neither are the fatal paths when connecting or creating the table fails. These are side effects outside the logic.
- MySQL type coercion is not modelled: INT/DECIMAL/BOOLEAN/DATETIME conversion, VARCHAR truncation, and key comparison under coercion or collation ("42" vs 42, case-insensitive UUIDs). Keys are compared as JSON values. Rejections other than a null key are an opaque `rejects` predicate.
- The model assumes a transactional engine, where an uncommitted batch is discarded when the connection closes after a crash.
- `NaN` and infinite floats in a JSON body are not modelled; floats are reals.
- The `page` argument of `fetch_tickets` is fixed at 1, as `main` calls it. `Paginator.Loop` is general in its starting page.
- The `__main__` caps are not modelled: 500 pages for tickets, 500 for time entries, 30 for feedback. The cap is a parameter.
- The API is modelled as finitely many answers followed by empty pages. A server that answers non-empty pages forever, with no cap, never ends the Python loop; the model does not cover that case.
- `PyJson.Keys`: its contract states membership and distinctness of the keys, not their first-occurrence order.
