/** What the sink shows of the source database: the events PostgreSQL sends for a change, under either
    replica identity, keep the sink equal to a view of the mapped tables, and exactly when. */
module SinkView {

  import opened Wrappers
  import opened Events
  import opened Sink

  /** The text column of every row, by table and primary key; an SQL null is the empty text. */
  type Database = map<(string, string), string>

  datatype Change =
    | RowInserted(table: string, id: string, text: string)
    | RowUpdated(table: string, oldId: string, newId: string, text: string, toast: bool)
    | RowDeleted(table: string, id: string)
    | TableTruncated(table: string)

  /** What the database lets happen: primary keys are unique and not empty, and a value is sent as
      unchanged only when it is. */
  predicate Allowed(db: Database, c: Change) {
    match c
    case RowInserted(t, id, text) => id != "" && (t, id) !in db
    case RowUpdated(t, oldId, newId, text, toast) =>
      && oldId != "" && newId != "" && (t, oldId) in db
      && (newId == oldId || (t, newId) !in db)
      && (toast ==> text == db[(t, oldId)])
    case RowDeleted(t, id) => id != "" && (t, id) in db
    case TableTruncated(t) => true
  }

  function Changed(db: Database, c: Change): Database {
    match c
    case RowInserted(t, id, text) => db[(t, id) := text]
    case RowUpdated(t, oldId, newId, text, toast) => (db - {(t, oldId)})[(t, newId) := text]
    case RowDeleted(t, id) => db - {(t, id)}
    case TableTruncated(t) => map k | k in db && k.0 != t :: db[k]
  }

  /** Whether the server sends whole old rows (REPLICA IDENTITY FULL) or only changed keys. */
  datatype Identity = Full | Default

  predicate Carries(row: Row, m: Mapping, id: string, text: string) {
    GetColumn(row, m.idCol) == id && GetColumn(row, m.embedCol) == text
  }

  /** `ev` is what the server sends for `c`. */
  predicate Describes(identity: Identity, m: Mapping, db: Database, c: Change, ev: Event)
    requires Allowed(db, c)
  {
    && ev.table == c.table
    && match c
       case RowInserted(t, id, text) => ev.op == Insert && ev.newRow.Some? && Carries(ev.newRow.value, m, id, text)
       case RowUpdated(t, oldId, newId, text, toast) =>
         && ev.op == Update && ev.newRow.Some?
         && Carries(ev.newRow.value, m, newId, if toast then "" else text)
         && IsToast(ev.newRow.value, m.embedCol) == toast
         && (match identity
             case Full => ev.oldRow.Some? && Carries(ev.oldRow.value, m, oldId, db[(t, oldId)])
             case Default =>
               if oldId == newId then ev.oldRow.None?
               else ev.oldRow.Some? && Carries(ev.oldRow.value, m, oldId, ""))
       case RowDeleted(t, id) => ev.op == Delete && ev.oldRow.Some? && GetColumn(ev.oldRow.value, m.idCol) == id
       case TableTruncated(t) => ev.op == Truncate
  }

  /** Tables that share the sink have labels, and different ones. */
  ghost predicate Separate(mappings: seq<Mapping>) {
    forall t, u: string :: t != u && Find(mappings, t).Some? && Find(mappings, u).Some? ==>
      Find(mappings, t).value.tag.Some? && Find(mappings, t).value.tag != Find(mappings, u).value.tag
  }

  predicate Shown(embed: string -> Vec, text: string) {
    text != "" && embed(text) != []
  }

  /** The text the sink should hold for row `id` of table `t`. */
  function Want(embed: string -> Vec, db: Database, t: string, id: string): Option<string> {
    if (t, id) in db && Shown(embed, db[(t, id)]) then Some(db[(t, id)]) else None
  }

  function TextAt(sink: Table, key: Key): Option<string> {
    if key in sink then Some(sink[key].text) else None
  }

  /** The sink is the view: it holds the text of every row of a mapped table that has one, with its
      embedding, and nothing else. */
  ghost predicate Mirrors(embed: string -> Vec, mappings: seq<Mapping>, db: Database, sink: Table) {
    && (forall t: string :: Find(mappings, t).Some? ==> MirrorsTable(embed, Find(mappings, t).value.tag, db, t, sink))
    && (forall key :: key in sink ==> Owned(mappings, key.tag) && sink[key].vec == embed(sink[key].text))
  }

  ghost predicate MirrorsTable(embed: string -> Vec, tag: Option<string>, db: Database, t: string, sink: Table) {
    forall id: string :: TextAt(sink, Key(tag, id)) == Want(embed, db, t, id)
  }

  ghost predicate Owned(mappings: seq<Mapping>, tag: Option<string>) {
    exists t: string :: Find(mappings, t).Some? && Find(mappings, t).value.tag == tag
  }

  /** The change leaves nothing stale: a row that was shown keeps its key and stays shown. */
  predicate Followed(embed: string -> Vec, db: Database, c: Change)
    requires Allowed(db, c)
  {
    c.RowUpdated? ==> !Shown(embed, db[(c.table, c.oldId)]) || (c.oldId == c.newId && Shown(embed, c.text))
  }

  /** The sink after one event. */
  function After(embed: string -> Vec, mappings: seq<Mapping>, sink: Table, ev: Event): Table {
    Run(embed, sink, Actions(mappings, [ev]))
  }

  /** The effect of the event, when its table is mapped to `m`. */
  function Effect(embed: string -> Vec, m: Mapping, sink: Table, ev: Event): Table {
    match PrepareFor(m, ev)
    case None => sink
    case Some(a) => Apply(sink, a, if a.Upsert? then embed(a.text) else [])
  }

  lemma AfterIsEffect(embed: string -> Vec, mappings: seq<Mapping>, sink: Table, ev: Event)
    ensures After(embed, mappings, sink, ev) ==
      match Find(mappings, ev.table) case None => sink case Some(m) => Effect(embed, m, sink, ev)
  {
    OneAction(mappings, ev);
    OneRun(embed, sink, Prepare(mappings, ev));
    hide PrepareFor, Apply, Run, Actions, Find;
  }

  lemma OneAction(mappings: seq<Mapping>, ev: Event)
    ensures var a := Prepare(mappings, ev); Actions(mappings, [ev]) == if a.Some? then [a.value] else []
  {
    hide Prepare;
    assert [ev][..0] == [];
  }

  lemma OneRun(embed: string -> Vec, sink: Table, a: Option<Action>)
    ensures Run(embed, sink, if a.Some? then [a.value] else []) ==
      if a.Some? then Apply(sink, a.value, if a.value.Upsert? then embed(a.value.text) else []) else sink
  {
    hide Apply;
    if a.Some? { assert [a.value][..0] == []; }
  }

  /** What the event makes of each row of its own table. */
  lemma EffectOnOwnTable(embed: string -> Vec, identity: Identity, m: Mapping, db: Database, sink: Table,
                         c: Change, ev: Event)
    requires Allowed(db, c) && Describes(identity, m, db, c, ev) && MirrorsTable(embed, m.tag, db, c.table, sink)
    ensures MirrorsTable(embed, m.tag, Changed(db, c), c.table, Effect(embed, m, sink, ev)) <==> Followed(embed, db, c)
  {
    var sink', db' := Effect(embed, m, sink, ev), Changed(db, c);
    if Followed(embed, db, c) {
      forall id: string ensures TextAt(sink', Key(m.tag, id)) == Want(embed, db', c.table, id) {
        assert TextAt(sink, Key(m.tag, id)) == Want(embed, db, c.table, id);
      }
    } else {
      assert TextAt(sink, Key(m.tag, c.oldId)) == Want(embed, db, c.table, c.oldId);
      assert TextAt(sink', Key(m.tag, c.oldId)) != Want(embed, db', c.table, c.oldId);
    }
  }

  /** The rows of the other tables are not touched. */
  lemma EffectOnOthers(embed: string -> Vec, m: Mapping, tag: Option<string>, db: Database, sink: Table,
                       c: Change, ev: Event, t: string)
    requires Allowed(db, c) && t != c.table && m.tag.Some? && m.tag != tag && MirrorsTable(embed, tag, db, t, sink)
    ensures MirrorsTable(embed, tag, Changed(db, c), t, Effect(embed, m, sink, ev))
  {}

  lemma UnchangedOthers(embed: string -> Vec, tag: Option<string>, db: Database, sink: Table, c: Change, t: string)
    requires Allowed(db, c) && t != c.table && MirrorsTable(embed, tag, db, t, sink)
    ensures MirrorsTable(embed, tag, Changed(db, c), t, sink)
  {}

  lemma EffectOwned(embed: string -> Vec, m: Mapping, sink: Table, ev: Event, key: Key)
    requires key in Effect(embed, m, sink, ev)
    ensures key.tag == m.tag || key in sink
    ensures (key in sink ==> sink[key].vec == embed(sink[key].text)) ==>
      var s := Effect(embed, m, sink, ev)[key]; s.vec == embed(s.text)
  {}

  /** One change: the sink keeps mirroring the source exactly when the change is followed. */
  lemma ChangeKeepsMirror(embed: string -> Vec, identity: Identity, mappings: seq<Mapping>, db: Database,
                          sink: Table, c: Change, ev: Event)
    requires Separate(mappings) && Allowed(db, c) && Mirrors(embed, mappings, db, sink) && ev.table == c.table
    requires Find(mappings, c.table).Some? ==> Describes(identity, Find(mappings, c.table).value, db, c, ev)
    ensures Mirrors(embed, mappings, Changed(db, c), After(embed, mappings, sink, ev)) <==>
      Find(mappings, c.table).None? || Followed(embed, db, c)
  {
    hide Followed, Effect, After, MirrorsTable, Allowed, Changed, Describes, Find;
    AfterIsEffect(embed, mappings, sink, ev);
    var sink', db' := After(embed, mappings, sink, ev), Changed(db, c);
    var found := Find(mappings, c.table);
    if found.None? {
      forall t: string | Find(mappings, t).Some? ensures MirrorsTable(embed, Find(mappings, t).value.tag, db', t, sink') {
        UnchangedOthers(embed, Find(mappings, t).value.tag, db, sink, c, t);
      }
    } else {
      var m := found.value;
      EffectOnOwnTable(embed, identity, m, db, sink, c, ev);
      forall t: string | t != c.table && Find(mappings, t).Some?
        ensures MirrorsTable(embed, Find(mappings, t).value.tag, db', t, sink')
      {
        EffectOnOthers(embed, m, Find(mappings, t).value.tag, db, sink, c, ev, t);
      }
      forall key | key in sink' ensures Owned(mappings, key.tag) && sink'[key].vec == embed(sink'[key].text) {
        EffectOwned(embed, m, sink, ev, key);
      }
    }
  }

  /** The entry is the event's row: its text with the text's vector, and its metadata columns. */
  predicate FromEvent(embed: string -> Vec, mappings: seq<Mapping>, ev: Event, key: Key, stored: Stored) {
    && (ev.op == Insert || ev.op == Update) && ev.newRow.Some? && Find(mappings, ev.table).Some?
    && var m, row := Find(mappings, ev.table).value, ev.newRow.value;
    && key == Key(m.tag, GetColumn(row, m.idCol)) && stored.text == GetColumn(row, m.embedCol)
    && stored.vec == embed(stored.text) && |stored.meta| == |m.metaCols|
    && forall i :: 0 <= i < |m.metaCols| ==> stored.meta[i] == GetColumn(row, m.metaCols[i])
  }

  lemma AfterFrom(embed: string -> Vec, mappings: seq<Mapping>, sink: Table, ev: Event, key: Key)
    requires key in After(embed, mappings, sink, ev)
    ensures var stored := After(embed, mappings, sink, ev)[key];
      (key in sink && stored == sink[key]) || FromEvent(embed, mappings, ev, key, stored)
  {
    AfterIsEffect(embed, mappings, sink, ev);
  }

  /** Whatever the sink holds after any run is one event's row, never a mixture: id, text, vector and
      metadata all come from the same event. */
  lemma {:induction false} StoredComesFrom(embed: string -> Vec, mappings: seq<Mapping>, events: seq<Event>, key: Key)
    returns (n: nat)
    requires key in Run(embed, map[], Actions(mappings, events))
    ensures n < |events|
    ensures FromEvent(embed, mappings, events[n], key, Run(embed, map[], Actions(mappings, events))[key])
  {
    hide FromEvent, Run, Actions;
    if events == [] {
      EmptyRun(embed, mappings, map[]);
      assert false;
    } else {
      var k := |events| - 1;
      var before := Run(embed, map[], Actions(mappings, events[..k]));
      assert events == events[..k] + [events[k]];
      ActionsConcat(mappings, events[..k], [events[k]]);
      RunConcat(embed, map[], Actions(mappings, events[..k]), Actions(mappings, [events[k]]));
      AfterFrom(embed, mappings, before, events[k], key);
      n := k;
      if !FromEvent(embed, mappings, events[k], key, Run(embed, map[], Actions(mappings, events))[key]) {
        n := StoredComesFrom(embed, mappings, events[..k], key);
      }
    }
  }

  /** Exactly these events have a text embedded: inserts and updates with an id and a text, but not an update that
      did not resend the text or that says it was the same before. */
  predicate Embeddable(m: Mapping, ev: Event) {
    && (ev.op == Insert || ev.op == Update) && ev.newRow.Some?
    && GetColumn(ev.newRow.value, m.idCol) != "" && GetColumn(ev.newRow.value, m.embedCol) != ""
    && (ev.op == Update ==>
          && !IsToast(ev.newRow.value, m.embedCol)
          && (ev.oldRow.Some? ==> GetColumn(ev.oldRow.value, m.embedCol) != GetColumn(ev.newRow.value, m.embedCol)))
  }

  /** An event that is not embeddable adds no text to embed, and unless it deletes or truncates leaves the sink alone,
      metadata included; an embeddable one stores its row whole. */
  lemma EmbedsIff(embed: string -> Vec, mappings: seq<Mapping>, sink: Table, ev: Event)
    requires Find(mappings, ev.table).Some?
    ensures var m := Find(mappings, ev.table).value;
      && Texts(Actions(mappings, [ev])) ==
           (if Embeddable(m, ev) then [GetColumn(ev.newRow.value, m.embedCol)] else [])
      && (!Embeddable(m, ev) && ev.op != Delete && ev.op != Truncate ==> After(embed, mappings, sink, ev) == sink)
      && (Embeddable(m, ev) && embed(GetColumn(ev.newRow.value, m.embedCol)) != [] ==>
            var key := Key(m.tag, GetColumn(ev.newRow.value, m.idCol));
            && key in After(embed, mappings, sink, ev)
            && FromEvent(embed, mappings, ev, key, After(embed, mappings, sink, ev)[key]))
  {
    AfterIsEffect(embed, mappings, sink, ev);
    OneAction(mappings, ev);
    OneText(Prepare(mappings, ev));
    hide Actions, Texts, GetColumn, IsToast, Find;
  }

  lemma OneText(a: Option<Action>)
    ensures Texts(if a.Some? then [a.value] else []) == if a.Some? && a.value.Upsert? then [a.value.text] else []
  {
    if a.Some? { assert [a.value][..0] == []; }
  }

  /** For instance: a row whose text is set to null keeps its old text and vector in the sink. */
  lemma ClearedTextStays(m: Mapping, ev: Event, vec: Vec)
    requires m == Mapping("docs", None, "id", "body", []) && vec != []
    requires ev == Event(Update, "docs", Some([Column("id", false, false, "1"), Column("body", true, false, "")]), None)
    ensures var sink := map[Key(None, "1") := Stored("old", [], vec)]; After(text => vec, [m], sink, ev) == sink
    ensures Want(text => vec, Changed(map[("docs", "1") := "old"], RowUpdated("docs", "1", "1", "", false)), "docs", "1") == None
  {
    var sink := map[Key(None, "1") := Stored("old", [], vec)];
    AfterIsEffect(text => vec, [m], sink, ev);
    assert GetColumn(ev.newRow.value, "body") == "";
  }

  // ---------- whole histories ----------

  function History(db: Database, changes: seq<Change>): Database {
    if changes == [] then db else Changed(History(db, changes[..|changes| - 1]), changes[|changes| - 1])
  }

  /** Every change is allowed where it happens, is described by its event, and is followed. */
  ghost predicate Streamed(embed: string -> Vec, identity: Identity, mappings: seq<Mapping>, db: Database,
                           changes: seq<Change>, events: seq<Event>)
  {
    && |events| == |changes|
    && forall i :: 0 <= i < |changes| ==>
         var before := History(db, changes[..i]);
         && Allowed(before, changes[i]) && events[i].table == changes[i].table
         && (Find(mappings, changes[i].table).Some? ==>
               && Describes(identity, Find(mappings, changes[i].table).value, before, changes[i], events[i])
               && Followed(embed, before, changes[i]))
  }

  lemma HistorySnoc(db: Database, changes: seq<Change>)
    requires changes != []
    ensures History(db, changes) == Changed(History(db, changes[..|changes| - 1]), changes[|changes| - 1])
  {}

  lemma StreamedPrefix(embed: string -> Vec, identity: Identity, mappings: seq<Mapping>, db: Database,
                       changes: seq<Change>, events: seq<Event>)
    requires Streamed(embed, identity, mappings, db, changes, events) && changes != []
    ensures var n := |changes| - 1; Streamed(embed, identity, mappings, db, changes[..n], events[..n])
    ensures var n := |changes| - 1;
      var before := History(db, changes[..n]);
      && |events| == |changes| && Allowed(before, changes[n]) && events[n].table == changes[n].table
      && (Find(mappings, changes[n].table).Some? ==>
            && Describes(identity, Find(mappings, changes[n].table).value, before, changes[n], events[n])
            && Followed(embed, before, changes[n]))
  {
    hide Describes, Followed, Allowed, Find, History;
    var n := |changes| - 1;
    forall i | 0 <= i < n ensures changes[..n][..i] == changes[..i] {}
  }

  /** After any history of changes the sink is the view of the source. */
  lemma {:induction false} HistoryMirrored(embed: string -> Vec, identity: Identity, mappings: seq<Mapping>,
                                           db: Database, sink: Table,
                                           changes: seq<Change>, events: seq<Event>)
    requires Separate(mappings) && Mirrors(embed, mappings, db, sink)
    requires Streamed(embed, identity, mappings, db, changes, events)
    ensures Mirrors(embed, mappings, History(db, changes), Run(embed, sink, Actions(mappings, events)))
  {
    hide *;
    if changes == [] {
      NothingStreamed(embed, identity, mappings, db, sink, events);
    } else {
      var n := |changes| - 1;
      StreamedPrefix(embed, identity, mappings, db, changes, events);
      HistoryMirrored(embed, identity, mappings, db, sink, changes[..n], events[..n]);
      HistorySnoc(db, changes);
      OneMoreMirrored(embed, identity, mappings, History(db, changes[..n]), sink, events[..n], changes[n], events[n]);
      assert events == events[..n] + [events[n]];
    }
  }

  lemma OneMoreMirrored(embed: string -> Vec, identity: Identity, mappings: seq<Mapping>, db: Database, sink: Table,
                        events: seq<Event>, c: Change, ev: Event)
    requires Separate(mappings) && Mirrors(embed, mappings, db, Run(embed, sink, Actions(mappings, events)))
    requires Allowed(db, c) && ev.table == c.table
    requires Find(mappings, c.table).Some? ==>
      Describes(identity, Find(mappings, c.table).value, db, c, ev) && Followed(embed, db, c)
    ensures Mirrors(embed, mappings, Changed(db, c), Run(embed, sink, Actions(mappings, events + [ev])))
  {
    var mid := Run(embed, sink, Actions(mappings, events));
    assert After(embed, mappings, mid, ev) == Run(embed, mid, Actions(mappings, [ev]));
    hide *;
    ChangeKeepsMirror(embed, identity, mappings, db, mid, c, ev);
    ActionsConcat(mappings, events, [ev]);
    RunConcat(embed, sink, Actions(mappings, events), Actions(mappings, [ev]));
  }

  lemma EmptyRun(embed: string -> Vec, mappings: seq<Mapping>, sink: Table)
    ensures Run(embed, sink, Actions(mappings, [])) == sink
  {}

  lemma NothingStreamed(embed: string -> Vec, identity: Identity, mappings: seq<Mapping>, db: Database, sink: Table,
                        events: seq<Event>)
    requires Streamed(embed, identity, mappings, db, [], events)
    ensures History(db, []) == db && Run(embed, sink, Actions(mappings, events)) == sink
  {
    assert events == [];
  }

  /** Where the actions of the first `j` events end. */
  function Upto(mappings: seq<Mapping>, events: seq<Event>, j: nat): nat
    requires j <= |events|
  {
    |Actions(mappings, events[..j])|
  }

  lemma ActionsBetween(mappings: seq<Mapping>, events: seq<Event>, k: nat, e: nat)
    requires k <= e <= |events|
    ensures Upto(mappings, events, k) <= Upto(mappings, events, e) <= |Actions(mappings, events)|
    ensures Actions(mappings, events[k..e]) ==
      Actions(mappings, events)[Upto(mappings, events, k)..Upto(mappings, events, e)]
  {
    hide Actions;
    assert events[..e] == events[..k] + events[k..e] && events == events[..e] + events[e..];
    ActionsConcat(mappings, events[..k], events[k..e]);
    ActionsConcat(mappings, events[..e], events[e..]);
  }

  /** One attempt at delivery: events `from` up to `to`, cut into batches anyhow. */
  datatype Attempt = Attempt(from: nat, to: nat, batches: seq<seq<Event>>)

  function StopOf(attempts: seq<Attempt>): nat {
    if attempts == [] then 0 else attempts[|attempts| - 1].to
  }

  /** Every attempt starts no later than the one before it stopped. */
  predicate Follow(events: seq<Event>, attempts: seq<Attempt>) {
    forall i :: 0 <= i < |attempts| ==>
      var a := attempts[i];
      a.from <= a.to <= |events| && a.from <= StopOf(attempts[..i]) && Flatten(a.batches) == events[a.from..a.to]
  }

  function Deliver(embed: string -> Vec, mappings: seq<Mapping>, sink: Table, attempts: seq<Attempt>): Table {
    if attempts == [] then sink
    else
      var n := |attempts| - 1;
      RunBatches(embed, mappings, Deliver(embed, mappings, sink, attempts[..n]), attempts[n].batches)
  }

  /** The attempts as positions in the actions. */
  function InActions(mappings: seq<Mapping>, events: seq<Event>, attempts: seq<Attempt>): Attempts
    requires Follow(events, attempts)
  {
    seq(|attempts|, i requires 0 <= i < |attempts| =>
      (Upto(mappings, events, attempts[i].from), Upto(mappings, events, attempts[i].to)))
  }

  lemma InActionsResume(mappings: seq<Mapping>, events: seq<Event>, attempts: seq<Attempt>)
    requires Follow(events, attempts)
    ensures Resuming(InActions(mappings, events, attempts), |Actions(mappings, events)|)
    ensures StopOf(attempts) <= |events|
    ensures EndOf(InActions(mappings, events, attempts)) == Upto(mappings, events, StopOf(attempts))
  {
    hide Actions;
    var spans := InActions(mappings, events, attempts);
    assert events[..0] == [] && |Actions(mappings, [])| == 0 by { NoActions(mappings); }
    forall i | 0 <= i < |spans|
      ensures spans[i].0 <= spans[i].1 <= |Actions(mappings, events)| && spans[i].0 <= EndOf(spans[..i])
    {
      ActionsBetween(mappings, events, attempts[i].from, attempts[i].to);
      if i > 0 {
        assert spans[..i][i - 1] == spans[i - 1] && attempts[..i][i - 1] == attempts[i - 1];
        ActionsBetween(mappings, events, attempts[i].from, attempts[i - 1].to);
      }
    }
  }

  lemma NoActions(mappings: seq<Mapping>)
    ensures Actions(mappings, []) == []
  {}

  lemma {:induction false} DeliverIsRedeliver(embed: string -> Vec, mappings: seq<Mapping>, sink: Table, events: seq<Event>,
                                              attempts: seq<Attempt>)
    requires Follow(events, attempts)
    ensures Resuming(InActions(mappings, events, attempts), |Actions(mappings, events)|)
    ensures Deliver(embed, mappings, sink, attempts) ==
      Redeliver(embed, sink, Actions(mappings, events), InActions(mappings, events, attempts))
  {
    InActionsResume(mappings, events, attempts);
    if attempts != [] {
      var n := |attempts| - 1;
      FollowPrefix(events, attempts);
      DeliverIsRedeliver(embed, mappings, sink, events, attempts[..n]);
      InActionsPrefix(mappings, events, attempts);
      hide Actions, Run, RunBatches, Follow, InActions, Resuming, Upto, EndOf;
      CutsDoNotMatter(embed, mappings, Deliver(embed, mappings, sink, attempts[..n]), attempts[n].batches);
      ActionsBetween(mappings, events, attempts[n].from, attempts[n].to);
    }
  }

  lemma FollowPrefix(events: seq<Event>, attempts: seq<Attempt>)
    requires Follow(events, attempts) && attempts != []
    ensures Follow(events, attempts[..|attempts| - 1])
    ensures var a := attempts[|attempts| - 1]; a.from <= a.to <= |events| && Flatten(a.batches) == events[a.from..a.to]
  {
    forall i | 0 <= i < |attempts| - 1 ensures attempts[..|attempts| - 1][..i] == attempts[..i] {}
  }

  lemma InActionsPrefix(mappings: seq<Mapping>, events: seq<Event>, attempts: seq<Attempt>)
    requires Follow(events, attempts) && attempts != []
    ensures var n := |attempts| - 1;
      && Follow(events, attempts[..n])
      && |InActions(mappings, events, attempts)| == |attempts|
      && InActions(mappings, events, attempts)[..n] == InActions(mappings, events, attempts[..n])
      && InActions(mappings, events, attempts)[n] ==
           (Upto(mappings, events, attempts[n].from), Upto(mappings, events, attempts[n].to))
  {
    FollowPrefix(events, attempts);
    hide Actions;
  }

  /** The same with the delivery the dispatcher gives: any number of attempts, each cut into batches
      anyhow, stopping anywhere, and resuming at or before the point the last one had reached. */
  lemma RedeliveredHistoryMirrored(embed: string -> Vec, identity: Identity, mappings: seq<Mapping>,
                                   db: Database, sink: Table, changes: seq<Change>, events: seq<Event>,
                                   attempts: seq<Attempt>)
    requires Separate(mappings) && Mirrors(embed, mappings, db, sink)
    requires Streamed(embed, identity, mappings, db, changes, events)
    requires Follow(events, attempts) && StopOf(attempts) == |events|
    ensures Mirrors(embed, mappings, History(db, changes), Deliver(embed, mappings, sink, attempts))
  {
    HistoryMirrored(embed, identity, mappings, db, sink, changes, events);
    DeliverIsRedeliver(embed, mappings, sink, events, attempts);
    InActionsResume(mappings, events, attempts);
    hide Mirrors, Separate, Streamed, Actions;
    var all, spans := Actions(mappings, events), InActions(mappings, events, attempts);
    RedeliveriesAreHarmless(embed, sink, all, spans);
    assert events[..|events|] == events;
    assert all[|all|..] == [] && Run(embed, Redeliver(embed, sink, all, spans), []) == Redeliver(embed, sink, all, spans);
  }
}
