/** Change events and what a sink makes of one: src/event.hpp and the first pass of call_batch, which
    is the same in src/pgembedding_sink.cpp, src/qdrant_sink.cpp and src/milvus_sink.cpp. */
module Events {

  import opened Wrappers

  datatype Column = Column(name: string, isNull: bool, isToast: bool, text: string)

  type Row = seq<Column>

  datatype Op = Insert | Update | Delete | Truncate | Commit

  datatype Event = Event(op: Op, table: string, newRow: Option<Row>, oldRow: Option<Row>)

  /** How one source table maps to the sink: its discriminator label (the tag), if it has one, and the source
      columns of the id, the text to embed and the metadata. */
  datatype Mapping = Mapping(table: string, tag: Option<string>, idCol: string, embedCol: string, metaCols: seq<string>)

  /** The text of a column; empty when it is null, was not sent, or is not there. */
  function GetColumn(row: Row, name: string): string {
    if row == [] then ""
    else if row[0].name == name then (if row[0].isNull || row[0].isToast then "" else row[0].text)
    else GetColumn(row[1..], name)
  }

  predicate IsToast(row: Row, name: string) {
    if row == [] then false
    else if row[0].name == name then row[0].isToast
    else IsToast(row[1..], name)
  }

  /** A column is read at its first occurrence: empty when it is null or was not sent. */
  lemma {:induction false} ColumnAt(row: Row, name: string, i: nat)
    requires i < |row| && row[i].name == name && forall k :: 0 <= k < i ==> row[k].name != name
    ensures GetColumn(row, name) == if row[i].isNull || row[i].isToast then "" else row[i].text
    ensures IsToast(row, name) == row[i].isToast
  {
    if i > 0 { ColumnAt(row[1..], name, i - 1); }
  }

  lemma {:induction false} NoColumn(row: Row, name: string)
    requires forall k :: 0 <= k < |row| ==> row[k].name != name
    ensures GetColumn(row, name) == "" && !IsToast(row, name)
  {
    if row != [] { NoColumn(row[1..], name); }
  }

  /** What has to be done to the sink. */
  datatype Action =
    | Upsert(tag: Option<string>, id: string, text: string, meta: seq<string>)
    | Remove(tag: Option<string>, id: string)
    | Clear(tag: Option<string>)

  /** An update whose text column the server did not resend, or did not change. */
  predicate Unchanged(m: Mapping, ev: Event)
    requires ev.newRow.Some?
  {
    && ev.op == Update
    && var text := GetColumn(ev.newRow.value, m.embedCol);
    || IsToast(ev.newRow.value, m.embedCol)
    || (ev.oldRow.Some? && GetColumn(ev.oldRow.value, m.embedCol) != "" && GetColumn(ev.oldRow.value, m.embedCol) == text)
  }

  function PrepareUpsert(m: Mapping, ev: Event): Option<Action> {
    if ev.newRow.None? || Unchanged(m, ev) then None
    else
      var id, text := GetColumn(ev.newRow.value, m.idCol), GetColumn(ev.newRow.value, m.embedCol);
      if id == "" || text == "" then None
      else Some(Upsert(m.tag, id, text,
                       seq(|m.metaCols|, i requires 0 <= i < |m.metaCols| => GetColumn(ev.newRow.value, m.metaCols[i]))))
  }

  /** The first mapping configured for a table. */
  function Find(mappings: seq<Mapping>, table: string): (r: Option<Mapping>)
    ensures r.Some? ==> r.value in mappings && r.value.table == table
    ensures r.None? ==> forall i :: 0 <= i < |mappings| ==> mappings[i].table != table
  {
    if mappings == [] then None
    else if mappings[0].table == table then Some(mappings[0])
    else Find(mappings[1..], table)
  }

  lemma {:induction false} FindIsFirst(mappings: seq<Mapping>, table: string, i: nat)
    requires i < |mappings| && mappings[i].table == table && forall k :: 0 <= k < i ==> mappings[k].table != table
    ensures Find(mappings, table) == Some(mappings[i])
  {
    if i > 0 { FindIsFirst(mappings[1..], table, i - 1); }
  }

  function PrepareFor(m: Mapping, ev: Event): Option<Action> {
    match ev.op
    case Insert => PrepareUpsert(m, ev)
    case Update => PrepareUpsert(m, ev)
    case Delete =>
      if ev.oldRow.None? || GetColumn(ev.oldRow.value, m.idCol) == "" then None
      else Some(Remove(m.tag, GetColumn(ev.oldRow.value, m.idCol)))
    case Truncate => Some(Clear(m.tag))
    case Commit => None
  }

  function Prepare(mappings: seq<Mapping>, ev: Event): Option<Action> {
    var m := Find(mappings, ev.table);
    if m.None? then None else PrepareFor(m.value, ev)
  }

  /** The actions of a run of events, in event order. */
  function Actions(mappings: seq<Mapping>, events: seq<Event>): seq<Action> {
    if events == [] then []
    else
      var a := Prepare(mappings, events[|events| - 1]);
      Actions(mappings, events[..|events| - 1]) + (if a.Some? then [a.value] else [])
  }

  lemma {:induction false} ActionsConcat(mappings: seq<Mapping>, a: seq<Event>, b: seq<Event>)
    ensures Actions(mappings, a + b) == Actions(mappings, a) + Actions(mappings, b)
  {
    if b == [] {
      assert a + b == a;
    } else {
      var n := |b| - 1;
      assert (a + b)[..|a + b| - 1] == a + b[..n] && (a + b)[|a + b| - 1] == b[n];
      ActionsConcat(mappings, a, b[..n]);
    }
  }
}
