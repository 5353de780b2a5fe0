/** The staging store of src/backfill_store.cpp, the dump and the live merge of src/backfill_util.cpp
    and the drain loop of src/backfill_worker.cpp. Each SQL statement is one step on the tables. */
module Backfill {

  import opened Wrappers
  import opened Events

  datatype RowKey = RowKey(table: string, id: string)

  /** A staged row's columns; an SQL null is None. */
  type Json = seq<(string, Option<string>)>

  datatype Staged = Staged(data: Json, claimed: bool)

  type Rows = map<RowKey, Staged>

  datatype Marker = InProgress | Complete(count: nat)

  datatype ClaimedRow = ClaimedRow(key: RowKey, data: Json)

  function Pending(rows: Rows): set<RowKey> {
    set k | k in rows && !rows[k].claimed
  }

  // ---------- staged columns ----------

  function Put(j: Json, name: string, value: Option<string>): Json {
    if j == [] then [(name, value)]
    else if j[0].0 == name then [(name, value)] + j[1..]
    else [j[0]] + Put(j[1..], name, value)
  }

  /** Takes over a column the event carries; one it does not carry, or carries as unchanged, stays. */
  function SetColumn(j: Json, row: Row, name: string): Json {
    if row == [] then j
    else if row[0].name != name then SetColumn(j, row[1..], name)
    else if row[0].isToast then j
    else Put(j, name, if row[0].isNull then None else Some(row[0].text))
  }

  function SetColumns(j: Json, row: Row, names: seq<string>): Json {
    if names == [] then j else SetColumn(SetColumns(j, row, names[..|names| - 1]), row, names[|names| - 1])
  }

  function ColumnsOf(m: Mapping): seq<string> { [m.idCol, m.embedCol] + m.metaCols }

  function Merge(j: Json, row: Row, m: Mapping): Json { SetColumns(j, row, ColumnsOf(m)) }

  /** The row of the insert event a staged row is turned into. */
  function Rehydrate(j: Json): Row {
    seq(|j|, i requires 0 <= i < |j| => Column(j[i].0, j[i].1.None?, false, if j[i].1.Some? then j[i].1.value else ""))
  }

  /** Whether the event carries the column at all. */
  predicate Known(row: Row, name: string) {
    row != [] && if row[0].name == name then !row[0].isToast else Known(row[1..], name)
  }

  method ToChangeEvent(row: ClaimedRow) returns (ev: Event)
    ensures ev == Event(Insert, row.key.table, Some(Rehydrate(row.data)), None)
  {
    var columns: Row := [];
    for i := 0 to |row.data|
      invariant columns == Rehydrate(row.data)[..i]
    {
      var (name, value) := row.data[i];
      columns := columns + [Column(name, value.None?, false, if value.Some? then value.value else "")];
    }
    assert columns == Rehydrate(row.data);
    ev := Event(Insert, row.key.table, Some(columns), None);
  }

  lemma {:induction false} PutGet(j: Json, name: string, value: Option<string>, col: string)
    ensures GetColumn(Rehydrate(Put(j, name, value)), col) ==
      if col == name then (if value.Some? then value.value else "") else GetColumn(Rehydrate(j), col)
  {
    var put := Put(j, name, value);
    RehydrateCons(put);
    if j == [] {
      assert put[1..] == [] && Rehydrate([]) == [];
    } else {
      RehydrateCons(j);
      if j[0].0 == name {
        assert put[1..] == j[1..];
      } else {
        assert put[1..] == Put(j[1..], name, value);
        PutGet(j[1..], name, value, col);
      }
    }
    hide Rehydrate;
  }

  lemma RehydrateCons(j: Json)
    requires j != []
    ensures var (name, value) := j[0];
      Rehydrate(j) == [Column(name, value.None?, false, if value.Some? then value.value else "")] + Rehydrate(j[1..])
  {}

  lemma {:induction false} SetColumnGet(j: Json, row: Row, name: string, col: string)
    ensures GetColumn(Rehydrate(SetColumn(j, row, name)), col) ==
      if col == name && Known(row, name) then GetColumn(row, name) else GetColumn(Rehydrate(j), col)
  {
    if row != [] {
      if row[0].name != name { SetColumnGet(j, row[1..], name, col); }
      else { PutGet(j, name, if row[0].isNull then None else Some(row[0].text), col); }
    }
  }

  lemma {:induction false} SetColumnsGet(j: Json, row: Row, names: seq<string>, col: string)
    ensures GetColumn(Rehydrate(SetColumns(j, row, names)), col) ==
      if col in names && Known(row, col) then GetColumn(row, col) else GetColumn(Rehydrate(j), col)
  {
    if names != [] {
      var n := |names| - 1;
      SetColumnsGet(j, row, names[..n], col);
      SetColumnGet(SetColumns(j, row, names[..n]), row, names[n], col);
      assert names == names[..n] + [names[n]];
    }
  }

  /** Merging a live update and delivering later gives each mapped column the update's value, or what it
      was staged with where the update does not carry it. */
  lemma MergedRow(j: Json, row: Row, m: Mapping, col: string)
    requires col in ColumnsOf(m)
    ensures GetColumn(Rehydrate(Merge(j, row, m)), col) ==
      if Known(row, col) then GetColumn(row, col) else GetColumn(Rehydrate(j), col)
  {
    SetColumnsGet(j, row, ColumnsOf(m), col);
  }

  // ---------- live events ----------

  /** What a live event does to the staged rows, and whether it is kept from the sinks. */
  function Absorb(mappings: seq<Mapping>, rows: Rows, ev: Event): (Rows, bool) {
    var found := Find(mappings, ev.table);
    if found.None? then (rows, false)
    else
      var m := found.value;
      match ev.op
      case Delete =>
        if ev.oldRow.Some? && GetColumn(ev.oldRow.value, m.idCol) != ""
        then (rows - {RowKey(ev.table, GetColumn(ev.oldRow.value, m.idCol))}, false)
        else (rows, false)
      case Update =>
        if ev.newRow.None? then (rows, false)
        else
          var key := RowKey(ev.table, GetColumn(ev.newRow.value, m.idCol));
          if key.id == "" || key !in rows then (rows, false)
          else (rows[key := Staged(Merge(rows[key].data, ev.newRow.value, m), rows[key].claimed)], true)
      case _ => (rows, false)
  }

  /** A live event leaves every staged row but its own alone, and claims as they are. A delete removes its row and
      is passed on; an update of a staged row is kept back and gives each mapped column the value it carries. */
  lemma AbsorbTouchesOne(mappings: seq<Mapping>, rows: Rows, ev: Event, k: RowKey)
    requires k in rows
    ensures var (rows', absorbed) := Absorb(mappings, rows, ev);
      match Find(mappings, ev.table)
      case None => rows' == rows && !absorbed
      case Some(m) =>
        if k.table != ev.table || (ev.op != Update && ev.op != Delete) then k in rows' && rows'[k] == rows[k]
        else if ev.op == Delete then
          && !absorbed
          && (if ev.oldRow.Some? && k.id != "" && GetColumn(ev.oldRow.value, m.idCol) == k.id then k !in rows'
              else k in rows' && rows'[k] == rows[k])
        else if ev.newRow.Some? && k.id != "" && GetColumn(ev.newRow.value, m.idCol) == k.id then
          && absorbed && k in rows' && rows'[k].claimed == rows[k].claimed
          && forall col :: GetColumn(Rehydrate(rows'[k].data), col) ==
               if col in ColumnsOf(m) && Known(ev.newRow.value, col) then GetColumn(ev.newRow.value, col)
               else GetColumn(Rehydrate(rows[k].data), col)
        else k in rows' && rows'[k] == rows[k]
  {
    var found := Find(mappings, ev.table);
    if found.Some? && ev.op == Update && ev.newRow.Some? {
      forall col ensures GetColumn(Rehydrate(Merge(rows[k].data, ev.newRow.value, found.value)), col) ==
        if col in ColumnsOf(found.value) && Known(ev.newRow.value, col) then GetColumn(ev.newRow.value, col)
        else GetColumn(Rehydrate(rows[k].data), col)
      {
        SetColumnsGet(rows[k].data, ev.newRow.value, ColumnsOf(found.value), col);
      }
    }
    hide GetColumn, Rehydrate, Merge, Known, ColumnsOf, Find;
  }

  /** An event is kept from the sinks exactly when it updates a staged row, and it never adds a row. */
  lemma AbsorbedIff(mappings: seq<Mapping>, rows: Rows, ev: Event)
    ensures var (rows', absorbed) := Absorb(mappings, rows, ev);
      && rows'.Keys <= rows.Keys
      && (absorbed <==>
            && ev.op == Update && ev.newRow.Some? && Find(mappings, ev.table).Some?
            && var id := GetColumn(ev.newRow.value, Find(mappings, ev.table).value.idCol);
            id != "" && RowKey(ev.table, id) in rows)
  {
    hide GetColumn, Merge, Find;
  }

  // ---------- the dump ----------

  /** One table's SELECT: its rows, an error, or rows that the store stops taking after these. */
  datatype Select = Rows(rows: seq<(string, Json)>) | Failed | Broken(rows: seq<(string, Json)>)

  datatype Tables = Tables(rows: Rows, markers: map<string, Marker>)

  const EMPTY := Tables(map[], map[])

  predicate Dumped(s: Tables, table: string) {
    table in s.markers && s.markers[table].Complete?
  }

  /** A select of the dump returned the row. */
  ghost predicate Selected(tables: seq<string>, selects: seq<Select>, k: RowKey, data: Json)
    requires |selects| == |tables|
  {
    exists i :: 0 <= i < |tables| && tables[i] == k.table && !selects[i].Failed? && (k.id, data) in selects[i].rows
  }

  /** The staged rows after a table's selected rows: those with an id, unless they were staged before. */
  function Stage(rows: Rows, table: string, selected: seq<(string, Json)>): Rows {
    if selected == [] then rows
    else
      var before := Stage(rows, table, selected[..|selected| - 1]);
      var (id, data) := selected[|selected| - 1];
      if id == "" || RowKey(table, id) in before then before else before[RowKey(table, id) := Staged(data, false)]
  }

  /** The tables after the dump of one of them, and whether it succeeded. */
  function DumpOne(s: Tables, table: string, select: Select): (Tables, bool) {
    if Dumped(s, table) then (s, true)
    else
      var begun := if table in s.markers then s.markers else s.markers[table := InProgress];
      match select
      case Failed => (Tables(s.rows, begun), false)
      case Broken(rows) => (Tables(Stage(s.rows, table, rows), begun), false)
      case Rows(rows) => (Tables(Stage(s.rows, table, rows), begun[table := Complete(|rows|)]), true)
  }

  /** The dump stops at the first table that fails. */
  function Dump(s: Tables, tables: seq<string>, selects: seq<Select>): (Tables, bool)
    requires |selects| == |tables|
  {
    if tables == [] then (s, true)
    else
      var n := |tables| - 1;
      var (before, ok) := Dump(s, tables[..n], selects[..n]);
      if ok then DumpOne(before, tables[n], selects[n]) else (before, false)
  }

  function Unclaimed(rows: Rows): Rows {
    map k | k in rows :: Staged(rows[k].data, false)
  }

  /** One start of the process up to streaming: on a new slot the store starts over and the dump is due; on an
      old one only if it had begun. `reached` tells whether the dump got its connection. */
  function Connect(s: Tables, freshSlot: bool, reached: bool, tables: seq<string>, selects: seq<Select>): (Tables, bool)
    requires |selects| == |tables|
  {
    var start := if freshSlot then EMPTY else Tables(Unclaimed(s.rows), s.markers);
    if !freshSlot && s.markers == map[] then (start, true)
    else if !reached then (start, false)
    else Dump(start, tables, selects)
  }

  class BackfillStore {
    var rows: Rows
    var markers: map<string, Marker>

    function State(): Tables
      reads this
    {
      Tables(rows, markers)
    }

    constructor ()
      ensures State() == Tables(map[], map[])
    {
      rows, markers := map[], map[];
    }

    method Reset()
      modifies this
      ensures State() == Tables(map[], map[])
    {
      rows, markers := map[], map[];
    }

    method ResetStaleClaims()
      modifies `rows
      ensures rows == Unclaimed(old(rows))
      ensures rows.Keys == old(rows.Keys) == Pending(rows)
      ensures forall k :: k in rows ==> rows[k].data == old(rows)[k].data
    {
      rows := map k | k in rows :: Staged(rows[k].data, false);
    }

    /** A row that is already staged stays as it is. */
    method InsertRow(key: RowKey, data: Json)
      modifies `rows
      ensures rows == if key in old(rows) then old(rows) else old(rows)[key := Staged(data, false)]
    {
      if key !in rows { rows := rows[key := Staged(data, false)]; }
    }

    method MarkTableDumpStarted(table: string)
      modifies `markers
      ensures markers == if table in old(markers) then old(markers) else old(markers)[table := InProgress]
    {
      if table !in markers { markers := markers[table := InProgress]; }
    }

    method MarkTableDumped(table: string, count: nat)
      modifies `markers
      ensures markers == old(markers)[table := Complete(count)]
    {
      markers := markers[table := Complete(count)];
    }

    method UpdateRowData(key: RowKey, data: Json) returns (changed: bool)
      modifies `rows
      ensures changed == (key in old(rows))
      ensures rows == if changed then old(rows)[key := Staged(data, old(rows)[key].claimed)] else old(rows)
    {
      changed := key in rows;
      if changed { rows := rows[key := Staged(data, rows[key].claimed)]; }
    }

    method MarkDone(key: RowKey)
      modifies `rows
      ensures rows == old(rows) - {key}
    {
      rows := rows - {key};
    }

    /** Claims up to `limit` pending rows, each once, and hands out their data. */
    method ClaimPending(limit: nat) returns (claimed: seq<ClaimedRow>)
      modifies `rows
      ensures Held(claimed, old(rows)) && Claimed(old(rows), claimed, rows)
      ensures |claimed| == if limit < |Pending(old(rows))| then limit else |Pending(old(rows))|
    {
      claimed := [];
      while |claimed| < limit && Pending(rows) != {}
        invariant Held(claimed, old(rows)) && Claimed(old(rows), claimed, rows)
        invariant |claimed| + |Pending(rows)| == |Pending(old(rows))| && |claimed| <= limit
      {
        var k :| k in Pending(rows);
        ClaimOne(old(rows), claimed, rows, k);
        claimed := claimed + [ClaimedRow(k, rows[k].data)];
        rows := rows[k := Staged(rows[k].data, true)];
      }
    }

    /** The dump of one table: nothing when it is already complete; otherwise it leaves its mark, whatever comes of
        the select, and every selected row with an id is staged, unless it was staged before. */
    method DumpTable(table: string, select: Select) returns (ok: bool)
      modifies this
      ensures (State(), ok) == DumpOne(old(State()), table, select)
      ensures table in markers && (ok <==> Dumped(State(), table))
      ensures old(Dumped(State(), table)) ==> ok && State() == old(State())
      ensures !old(Dumped(State(), table)) ==> ok == select.Rows?
      ensures ok && !old(Dumped(State(), table)) ==>
        forall i :: 0 <= i < |select.rows| && select.rows[i].0 != "" ==> RowKey(table, select.rows[i].0) in rows
      ensures forall k :: k in old(rows) ==> k in rows && rows[k] == old(rows)[k]
      ensures forall k :: k in rows && k !in old(rows) ==>
        !select.Failed? && k.table == table && (k.id, rows[k].data) in select.rows && !rows[k].claimed
      ensures forall t :: t != table ==> (t in markers <==> t in old(markers)) && (t in markers ==> markers[t] == old(markers)[t])
    {
      if table in markers && markers[table].Complete? { return true; }
      MarkTableDumpStarted(table);
      if select.Failed? { return false; }
      StageIs(rows, table, select.rows);
      StageRows(table, select.rows);
      if select.Broken? { return false; }
      MarkTableDumped(table, |select.rows|);
      ok := true;
    }

    method StageRows(table: string, selected: seq<(string, Json)>)
      modifies `rows
      ensures rows == Stage(old(rows), table, selected)
    {
      for i := 0 to |selected|
        invariant rows == Stage(old(rows), table, selected[..i])
      {
        assert selected[..i + 1][..i] == selected[..i];
        var (id, data) := selected[i];
        if id != "" { InsertRow(RowKey(table, id), data); }
      }
      assert selected[..|selected|] == selected;
    }

    /** What the source does with the store when it connects, and the dump: a new slot starts over; an old
        one gets its stale claims back, and finishes a dump it had begun. A dump that was due and reached the
        database leaves a mark, so the next start resumes it; when it succeeds every table is complete. */
    method ConnectAndDump(freshSlot: bool, reached: bool, tables: seq<string>, selects: seq<Select>) returns (ok: bool)
      requires |selects| == |tables|
      modifies this
      ensures (State(), ok) == Connect(old(State()), freshSlot, reached, tables, selects)
      ensures forall k :: k in old(rows) && !freshSlot ==> k in rows && rows[k] == Staged(old(rows)[k].data, false)
      ensures Pending(rows) == rows.Keys
      ensures forall k :: k in rows && (freshSlot || k !in old(rows)) ==> Selected(tables, selects, k, rows[k].data)
      ensures (freshSlot || old(markers) != map[]) && reached && tables != [] ==> markers != map[]
      ensures ok && (freshSlot || old(markers) != map[]) ==> forall i :: 0 <= i < |tables| ==> Dumped(State(), tables[i])
      ensures !freshSlot && old(markers) == map[] ==> ok && rows.Keys == old(rows.Keys)
    {
      if freshSlot { Reset(); } else { ResetStaleClaims(); }
      if !freshSlot && markers == map[] { return true; }
      ok := DumpAll(reached, tables, selects);
    }

    method DumpAll(reached: bool, tables: seq<string>, selects: seq<Select>) returns (ok: bool)
      requires |selects| == |tables|
      modifies this
      ensures (State(), ok) == if reached then Dump(old(State()), tables, selects) else (old(State()), false)
      ensures reached && tables != [] ==> tables[0] in markers
      ensures forall t :: t in old(markers) ==> t in markers
      ensures ok ==> forall i :: 0 <= i < |tables| ==> Dumped(State(), tables[i])
      ensures forall t :: old(Dumped(State(), t)) ==> Dumped(State(), t)
      ensures forall k :: k in old(rows) ==> k in rows && rows[k] == old(rows)[k]
      ensures forall k :: k in rows && k !in old(rows) ==> !rows[k].claimed && Selected(tables, selects, k, rows[k].data)
    {
      if !reached { return false; }
      for i := 0 to |tables|
        invariant (State(), true) == Dump(old(State()), tables[..i], selects[..i])
        invariant i > 0 ==> tables[0] in markers
        invariant forall t :: t in old(markers) ==> t in markers
        invariant forall n :: 0 <= n < i ==> Dumped(State(), tables[n])
        invariant forall t :: old(Dumped(State(), t)) ==> Dumped(State(), t)
        invariant forall k :: k in old(rows) ==> k in rows && rows[k] == old(rows)[k]
        invariant forall k :: k in rows && k !in old(rows) ==> !rows[k].claimed && Selected(tables, selects, k, rows[k].data)
      {
        ghost var before := State();
        DumpStep(old(State()), tables, selects, i);
        var done := DumpTable(tables[i], selects[i]);
        assert forall t :: Dumped(before, t) ==> Dumped(State(), t);
        if !done {
          DumpFails(old(State()), tables, selects, i + 1);
          return false;
        }
      }
      assert tables[..|tables|] == tables && selects[..|tables|] == selects;
      ok := true;
    }

    method AbsorbEvent(mappings: seq<Mapping>, ev: Event) returns (absorbed: bool)
      modifies `rows
      ensures (rows, absorbed) == Absorb(mappings, old(rows), ev)
    {
      if ev.op != Update && ev.op != Delete { return false; }
      var found := Find(mappings, ev.table);
      if found.None? { return false; }
      var m := found.value;
      if ev.op == Delete {
        if ev.oldRow.Some? {
          var id := GetColumn(ev.oldRow.value, m.idCol);
          if id != "" { MarkDone(RowKey(ev.table, id)); }
        }
        return false;
      }
      if ev.newRow.None? { return false; }
      var key := RowKey(ev.table, GetColumn(ev.newRow.value, m.idCol));
      if key.id == "" || key !in rows { return false; }
      var merged := MergeKnownColumns(rows[key].data, ev.newRow.value, m);
      var _ := UpdateRowData(key, merged);
      return true;
    }
  }

  lemma DumpStep(s: Tables, tables: seq<string>, selects: seq<Select>, i: nat)
    requires |selects| == |tables| && i < |tables|
    ensures var (before, ok) := Dump(s, tables[..i], selects[..i]);
      Dump(s, tables[..i + 1], selects[..i + 1]) == if ok then DumpOne(before, tables[i], selects[i]) else (before, false)
  {
    hide DumpOne;
    assert tables[..i + 1][..i] == tables[..i] && selects[..i + 1][..i] == selects[..i];
  }

  lemma {:induction false} DumpFails(s: Tables, tables: seq<string>, selects: seq<Select>, i: nat)
    requires |selects| == |tables| && i <= |tables| && !Dump(s, tables[..i], selects[..i]).1
    ensures Dump(s, tables, selects) == Dump(s, tables[..i], selects[..i])
    decreases |tables| - i
  {
    hide DumpOne;
    if i < |tables| {
      DumpStep(s, tables, selects, i);
      DumpFails(s, tables, selects, i + 1);
    } else {
      assert tables[..i] == tables && selects[..i] == selects;
    }
  }

  /** Staging keeps what was staged, adds only selected rows, and misses none with an id. */
  lemma {:induction false} StageIs(rows: Rows, table: string, selected: seq<(string, Json)>)
    ensures var after := Stage(rows, table, selected);
      && (forall k :: k in rows ==> k in after && after[k] == rows[k])
      && (forall k :: k in after && k !in rows ==>
            k.table == table && (k.id, after[k].data) in selected && !after[k].claimed)
      && (forall i :: 0 <= i < |selected| && selected[i].0 != "" ==> RowKey(table, selected[i].0) in after)
  {
    if selected != [] {
      var n := |selected| - 1;
      StageIs(rows, table, selected[..n]);
      var before, after := Stage(rows, table, selected[..n]), Stage(rows, table, selected);
      forall i | 0 <= i < |selected| && selected[i].0 != "" ensures RowKey(table, selected[i].0) in after {
        if i < n { assert selected[..n][i] == selected[i]; }
      }
      forall k | k in after && k !in rows ensures k.table == table && (k.id, after[k].data) in selected && !after[k].claimed {
        if k !in before { assert (k.id, after[k].data) == selected[n]; }
      }
    }
  }

  method MergeKnownColumns(data: Json, row: Row, m: Mapping) returns (merged: Json)
    ensures merged == Merge(data, row, m)
  {
    merged := data;
    var names := ColumnsOf(m);
    for i := 0 to |names|
      invariant merged == SetColumns(data, row, names[..i])
    {
      assert names[..i + 1][..i] == names[..i];
      merged := SetColumn(merged, row, names[i]);
    }
    assert names[..|names|] == names;
  }

  function KeysOf(claimed: seq<ClaimedRow>): set<RowKey> {
    set i | 0 <= i < |claimed| :: claimed[i].key
  }

  lemma KeysOfSnoc(claimed: seq<ClaimedRow>, c: ClaimedRow)
    ensures KeysOf(claimed + [c]) == KeysOf(claimed) + {c.key}
  {
    assert (claimed + [c])[|claimed|] == c;
    forall k | k in KeysOf(claimed) ensures k in KeysOf(claimed + [c]) {
      var i :| 0 <= i < |claimed| && claimed[i].key == k;
      assert (claimed + [c])[i].key == k;
    }
  }

  /** The claimed rows were pending, carry the stored data, and are pairwise different. */
  ghost predicate Held(claimed: seq<ClaimedRow>, rows: Rows) {
    && (forall i :: 0 <= i < |claimed| ==> claimed[i].key in Pending(rows) && claimed[i].data == rows[claimed[i].key].data)
    && (forall i, j :: 0 <= i < j < |claimed| ==> claimed[i].key != claimed[j].key)
  }

  lemma ClaimOne(before: Rows, claimed: seq<ClaimedRow>, rows: Rows, k: RowKey)
    requires Held(claimed, before) && Claimed(before, claimed, rows) && k in Pending(rows)
    ensures var more, rows' := claimed + [ClaimedRow(k, rows[k].data)], rows[k := Staged(rows[k].data, true)];
      && Held(more, before) && Claimed(before, more, rows') && Pending(rows') == Pending(rows) - {k}
  {
    var c := ClaimedRow(k, rows[k].data);
    KeysOfSnoc(claimed, c);
    assert k !in KeysOf(claimed);
    forall i | 0 <= i < |claimed| ensures claimed[i].key != k {
      assert claimed[i].key in KeysOf(claimed);
    }
  }

  ghost predicate Claimed(before: Rows, claimed: seq<ClaimedRow>, after: Rows) {
    && after.Keys == before.Keys
    && forall k :: k in before ==> after[k] == if k in KeysOf(claimed) then Staged(before[k].data, true) else before[k]
  }
}
