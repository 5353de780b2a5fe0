/** The run of BackfillRun sees the staged rows and the sink rows of one mapped table as id to text. The
    store with its whole rows and mapped columns takes the same steps, and so does the sink. */
module BackfillRefinement {

  import opened Wrappers
  import opened Events
  import opened Sink
  import opened SinkView
  import opened Backfill
  import BackfillWorker
  import R = BackfillRun

  function TextOf(m: Mapping, data: Json): string {
    GetColumn(Rehydrate(data), m.embedCol)
  }

  /** The staged rows of the mapped table. */
  function View(m: Mapping, rows: Rows): R.Rows {
    map k | k in rows && k.table == m.table :: k.id := R.Staged(TextOf(m, rows[k].data), rows[k].claimed)
  }

  /** `ev` is the event the server sends for `c`: an update whose text is sent anew, sent with the old row
      that has the same text, or left out as unchanged. */
  predicate Announces(m: Mapping, c: R.Change, ev: Event) {
    && ev.table == m.table && c.id != ""
    && match c
       case Ins(id, text) => ev.op == Insert && ev.newRow.Some? && Carries(ev.newRow.value, m, id, text)
       case Upd(id, text, sent) =>
         && ev.op == Update && ev.newRow.Some? && GetColumn(ev.newRow.value, m.idCol) == id
         && (match sent
             case Value => Known(ev.newRow.value, m.embedCol) && Carries(ev.newRow.value, m, id, text) && !Unchanged(m, ev)
             case Repeated => Known(ev.newRow.value, m.embedCol) && Carries(ev.newRow.value, m, id, text) && Unchanged(m, ev)
             case Omitted => !Known(ev.newRow.value, m.embedCol) && IsToast(ev.newRow.value, m.embedCol))
       case Del(id) => ev.op == Delete && ev.oldRow.Some? && GetColumn(ev.oldRow.value, m.idCol) == id
  }

  /** `view` is what the staged rows of the table look like. */
  ghost predicate IsView(m: Mapping, rows: Rows, view: R.Rows) {
    && (forall id: string :: id in view <==> RowKey(m.table, id) in rows)
    && (forall id: string :: id in view ==>
          var s := rows[RowKey(m.table, id)]; view[id] == R.Staged(TextOf(m, s.data), s.claimed))
  }

  lemma ViewIsView(m: Mapping, rows: Rows)
    ensures IsView(m, rows, View(m, rows))
  {
    forall id: string | RowKey(m.table, id) in rows ensures id in View(m, rows) {
      assert RowKey(m.table, id).id in View(m, rows);
    }
  }

  lemma OneView(m: Mapping, rows: Rows, view: R.Rows)
    requires IsView(m, rows, view)
    ensures View(m, rows) == view
  {
    ViewIsView(m, rows);
  }

  /** Absorbing an event in the store is absorbing its change in the run, and the event is kept from the
      sinks in the same cases. */
  lemma AbsorbRefines(mappings: seq<Mapping>, m: Mapping, rows: Rows, c: R.Change, ev: Event)
    requires Find(mappings, m.table) == Some(m) && Announces(m, c, ev)
    ensures View(m, Absorb(mappings, rows, ev).0) == R.AbsorbRows(View(m, rows), c)
    ensures Absorb(mappings, rows, ev).1 == R.Absorbed(View(m, rows), c)
  {
    hide View, TextOf, Known;
    ViewIsView(m, rows);
    if c.Upd? && RowKey(m.table, c.id) in rows { MergedText(m, rows[RowKey(m.table, c.id)].data, ev.newRow.value); }
    OneView(m, Absorb(mappings, rows, ev).0, R.AbsorbRows(View(m, rows), c));
  }

  lemma MergedText(m: Mapping, data: Json, row: Row)
    ensures TextOf(m, Merge(data, row, m)) == if Known(row, m.embedCol) then GetColumn(row, m.embedCol) else TextOf(m, data)
  {
    assert ColumnsOf(m)[1] == m.embedCol;
    MergedRow(data, row, m, m.embedCol);
  }

  /** Staging a row that is not there yet, with its text. */
  lemma InsertRefines(m: Mapping, rows: Rows, id: string, data: Json)
    ensures View(m, rows[RowKey(m.table, id) := Staged(data, false)]) == View(m, rows)[id := R.Staged(TextOf(m, data), false)]
  {
    hide View, TextOf;
    ViewIsView(m, rows);
    OneView(m, rows[RowKey(m.table, id) := Staged(data, false)], View(m, rows)[id := R.Staged(TextOf(m, data), false)]);
  }

  /** Marking a row done. */
  lemma MarkDoneRefines(m: Mapping, rows: Rows, id: string)
    ensures View(m, rows - {RowKey(m.table, id)}) == View(m, rows) - {id}
  {
    hide View, TextOf;
    ViewIsView(m, rows);
    OneView(m, rows - {RowKey(m.table, id)}, View(m, rows) - {id});
  }

  /** Claiming rows of the table. */
  lemma ClaimRefines(m: Mapping, rows: Rows, claimed: seq<ClaimedRow>, after: Rows, ids: seq<string>)
    requires Claimed(rows, claimed, after) && |ids| == |claimed|
    requires forall i :: 0 <= i < |ids| ==> claimed[i].key == RowKey(m.table, ids[i])
    ensures View(m, after) == R.ClaimRows(View(m, rows), ids)
  {
    hide View, TextOf;
    ViewIsView(m, rows);
    forall k | k in ids ensures RowKey(m.table, k) in KeysOf(claimed) {
      var i :| 0 <= i < |ids| && ids[i] == k;
      assert claimed[i].key in KeysOf(claimed);
    }
    OneView(m, after, R.ClaimRows(View(m, rows), ids));
  }

  /** Giving stale claims back. */
  lemma ResetRefines(m: Mapping, rows: Rows, after: Rows)
    requires after.Keys == rows.Keys && forall k :: k in rows ==> after[k] == Staged(rows[k].data, false)
    ensures View(m, after) == R.Unclaimed(View(m, rows))
  {
    hide View, TextOf;
    ViewIsView(m, rows);
    OneView(m, after, R.Unclaimed(View(m, rows)));
  }

  // ---------- the sink ----------

  /** The texts the sink holds for the mapped table. */
  function SinkTexts(m: Mapping, sink: Table): map<string, string> {
    map k | k in sink && k.tag == m.tag :: k.id := sink[k].text
  }

  ghost predicate AreTexts(m: Mapping, sink: Table, texts: map<string, string>) {
    forall id: string :: TextAt(sink, Key(m.tag, id)) == R.Look(texts, id)
  }

  lemma TextsAreTexts(m: Mapping, sink: Table)
    ensures AreTexts(m, sink, SinkTexts(m, sink))
  {
    forall id: string ensures TextAt(sink, Key(m.tag, id)) == R.Look(SinkTexts(m, sink), id) {
      if Key(m.tag, id) in sink { assert Key(m.tag, id).id in SinkTexts(m, sink); }
    }
  }

  lemma OneTexts(m: Mapping, sink: Table, texts: map<string, string>)
    requires AreTexts(m, sink, texts)
    ensures SinkTexts(m, sink) == texts
  {
    TextsAreTexts(m, sink);
    var own := SinkTexts(m, sink);
    hide SinkTexts;
    forall id: string ensures R.Look(own, id) == R.Look(texts, id) { assert TextAt(sink, Key(m.tag, id)) == R.Look(texts, id); }
    forall id: string ensures id in own <==> id in texts { assert R.Look(own, id) == R.Look(texts, id); }
    forall id | id in own ensures own[id] == texts[id] { assert R.Look(own, id) == R.Look(texts, id); }
  }

  /** The provider has a vector for every text. */
  ghost predicate Embeds(embed: string -> Vec) {
    forall text: string :: text != "" ==> embed(text) != []
  }

  /** A live event that reaches the sink is the run's change of the sink. */
  lemma LiveRefines(embed: string -> Vec, mappings: seq<Mapping>, m: Mapping, sink: Table, c: R.Change, ev: Event)
    requires Embeds(embed) && Find(mappings, m.table) == Some(m) && Announces(m, c, ev) && (c.Del? || c.text != "")
    ensures SinkTexts(m, After(embed, mappings, sink, ev)) == R.ApplySink(SinkTexts(m, sink), c)
  {
    AfterIsEffect(embed, mappings, sink, ev);
    TextsAreTexts(m, sink);
    hide SinkTexts, After;
    var sink', texts' := Effect(embed, m, sink, ev), R.ApplySink(SinkTexts(m, sink), c);
    forall id: string ensures TextAt(sink', Key(m.tag, id)) == R.Look(texts', id) {
      assert TextAt(sink, Key(m.tag, id)) == R.Look(SinkTexts(m, sink), id);
    }
    OneTexts(m, sink', texts');
  }

  /** A claimed row as the run sees it. */
  predicate Brings(m: Mapping, row: ClaimedRow, held: (string, string)) {
    && row.key == RowKey(m.table, held.0) && held.0 != "" && held.1 != ""
    && Carries(Rehydrate(row.data), m, held.0, held.1)
  }

  function EventsOf(claimed: seq<ClaimedRow>): seq<Event> {
    seq(|claimed|, i requires 0 <= i < |claimed| => BackfillWorker.EventOf(claimed[i].key, claimed[i].data))
  }

  lemma InsertPuts(embed: string -> Vec, mappings: seq<Mapping>, m: Mapping, sink: Table, row: ClaimedRow, held: (string, string))
    requires Embeds(embed) && Find(mappings, m.table) == Some(m) && Brings(m, row, held)
    ensures SinkTexts(m, After(embed, mappings, sink, BackfillWorker.EventOf(row.key, row.data))) ==
      SinkTexts(m, sink)[held.0 := held.1]
  {
    var ev := BackfillWorker.EventOf(row.key, row.data);
    LiveRefines(embed, mappings, m, sink, R.Ins(held.0, held.1), ev);
  }

  /** A worker's call of the sink with the rows it claimed is the run's. */
  lemma {:induction false} GiveRefines(embed: string -> Vec, mappings: seq<Mapping>, m: Mapping, sink: Table,
                                       claimed: seq<ClaimedRow>, held: seq<(string, string)>)
    requires Embeds(embed) && Find(mappings, m.table) == Some(m) && |held| == |claimed|
    requires forall i :: 0 <= i < |claimed| ==> Brings(m, claimed[i], held[i])
    ensures SinkTexts(m, Run(embed, sink, Actions(mappings, EventsOf(claimed)))) == R.PutAll(SinkTexts(m, sink), held)
  {
    hide Embeds, Find, Brings, SinkTexts, Run, Actions;
    if claimed == [] {
      assert EventsOf(claimed) == [];
      EmptyRun(embed, mappings, sink);
    } else {
      var n := |claimed| - 1;
      var before, last := EventsOf(claimed[..n]), BackfillWorker.EventOf(claimed[n].key, claimed[n].data);
      GiveRefines(embed, mappings, m, sink, claimed[..n], held[..n]);
      assert EventsOf(claimed) == before + [last];
      ActionsConcat(mappings, before, [last]);
      RunConcat(embed, sink, Actions(mappings, before), Actions(mappings, [last]));
      InsertPuts(embed, mappings, m, Run(embed, sink, Actions(mappings, before)), claimed[n], held[n]);
    }
  }
}
