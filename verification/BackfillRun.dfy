/** Backfill and live streaming together: a dump that may be interrupted, a live stream that edits the
    staged rows or passes them by, worker processes that drain them, crashes and restarts. One table,
    seen as id to text; each SQL statement and each sink call is one step. */
module BackfillRun {

  import opened Wrappers

  type Id = string
  type Text = string
  type WorkerId = nat

  /** How an update carries the text column: a new value, the old value again, or not at all. */
  datatype Sent = Value | Repeated | Omitted

  datatype Change = Ins(id: Id, text: Text) | Upd(id: Id, text: Text, sent: Sent) | Del(id: Id)

  /** The table when the first slot was created, and everything that happens to it afterwards. */
  datatype Source = Source(base: map<Id, Text>, log: seq<Change>)

  function Changed(t: map<Id, Text>, c: Change): map<Id, Text> {
    match c
    case Ins(id, text) => t[id := text]
    case Upd(id, text, _) => t[id := text]
    case Del(id) => t - {id}
  }

  function TableAt(src: Source, q: nat): map<Id, Text>
    requires q <= |src.log|
  {
    if q == 0 then src.base else Changed(TableAt(src, q - 1), src.log[q - 1])
  }

  function At(src: Source, id: Id, q: nat): Option<Text>
    requires q <= |src.log|
  {
    if id in TableAt(src, q) then Some(TableAt(src, q)[id]) else None
  }

  /** The log fits the table: ids are unique, no id or text is empty, and a text that is not sent anew is
      unchanged. */
  ghost predicate Consistent(src: Source) {
    && (forall id :: id in src.base ==> id != "" && src.base[id] != "")
    && (forall p :: 0 <= p < |src.log| ==> Fits(TableAt(src, p), src.log[p]))
  }

  predicate Fits(t: map<Id, Text>, c: Change) {
    match c
    case Ins(id, text) => id !in t && id != "" && text != ""
    case Upd(id, text, sent) => id in t && text != "" && (sent != Value ==> text == t[id])
    case Del(id) => id in t
  }

  /** Whether the sinks act on the change for this id; they drop updates that leave the text alone. */
  predicate Writes(c: Change, id: Id) {
    c.id == id && (c.Upd? ==> c.sent == Value)
  }

  function Act(v: Option<Text>, c: Change, id: Id): Option<Text> {
    if !Writes(c, id) then v else if c.Del? then None else Some(c.text)
  }

  function ApplySink(sink: map<Id, Text>, c: Change): map<Id, Text> {
    if !Writes(c, c.id) then sink else Changed(sink, c)
  }

  function Look(t: map<Id, Text>, id: Id): Option<Text> {
    if id in t then Some(t[id]) else None
  }

  // ---------- states and steps ----------

  datatype Staged = Staged(text: Text, claimed: bool)

  type Rows = map<Id, Staged>

  /** A worker between a claim and its next: what it claimed, how many sinks have been given it, how
      many of its rows are marked done. */
  datatype Work = Work(held: seq<(Id, Text)>, given: nat, marked: nat)

  /** `slot` is where the slot was created and `live` the next log position to read; `queues[i]` the
      positions dispatched but not yet applied to sink `i`; `calls` the calls of workers to sinks that
      returned. */
  datatype State = State(
    rows: Rows, dumped: bool, slot: nat, live: nat, queues: seq<seq<nat>>, sinks: seq<map<Id, Text>>,
    workers: map<WorkerId, Work>, calls: seq<(nat, seq<(Id, Text)>)>)

  datatype Step =
    | DumpRow(id: Id, at: nat)
    | FinishDump(at: nat)
    | ReadLive
    | ApplyLive(sink: nat)
    | Claim(worker: WorkerId, ids: seq<Id>)
    | Give(worker: WorkerId)
    | MarkDone(worker: WorkerId)
    | Die(worker: WorkerId)
    | Restart(from: nat)
    | NewEpoch(at: nat)

  /** What a live change does to the staged rows: updates of staged rows are merged, deletes remove. */
  function AbsorbRows(rows: Rows, c: Change): Rows {
    match c
    case Ins(_, _) => rows
    case Upd(id, text, sent) =>
      if id in rows && sent != Omitted then rows[id := Staged(text, rows[id].claimed)] else rows
    case Del(id) => rows - {id}
  }

  predicate Absorbed(rows: Rows, c: Change) {
    c.Upd? && c.id in rows
  }

  function ClaimRows(rows: Rows, ids: seq<Id>): Rows {
    map id | id in rows :: if id in ids then Staged(rows[id].text, true) else rows[id]
  }

  function Unclaimed(rows: Rows): Rows {
    map id | id in rows :: Staged(rows[id].text, false)
  }

  function PutAll(sink: map<Id, Text>, held: seq<(Id, Text)>): map<Id, Text> {
    if held == [] then sink else PutAll(sink, held[..|held| - 1])[held[|held| - 1].0 := held[|held| - 1].1]
  }

  /** When a step can be taken. The dump reads the table as it is at some moment after the slot was
      created. A restart resumes at or before every change that a sink has not got, which is what the
      confirmed position is for, and not before the slot. A new slot starts behind everything read. */
  predicate Enabled(src: Source, s: State, a: Step) {
    match a
    case DumpRow(id, at) => !s.dumped && s.workers == map[] && s.slot <= at <= |src.log| && id in TableAt(src, at)
    case FinishDump(at) =>
      !s.dumped && s.workers == map[] && s.slot <= at <= |src.log| && TableAt(src, at).Keys <= s.rows.Keys
    case ReadLive => s.dumped && s.live < |src.log|
    case ApplyLive(i) => i < |s.sinks| && i < |s.queues| && s.queues[i] != [] && s.queues[i][0] < |src.log|
    case Claim(w, ids) =>
      && s.dumped && w !in s.workers && ids != []
      && (forall k :: 0 <= k < |ids| ==> ids[k] in s.rows && !s.rows[ids[k]].claimed)
      && (forall j, k :: 0 <= j < k < |ids| ==> ids[j] != ids[k])
    case Give(w) => w in s.workers && s.workers[w].given < |s.sinks|
    case MarkDone(w) => w in s.workers && s.workers[w].given == |s.sinks| && s.workers[w].marked < |s.workers[w].held|
    case Die(w) => w in s.workers
    case Restart(from) =>
      s.slot <= from <= s.live && forall i, k :: 0 <= i < |s.queues| && 0 <= k < |s.queues[i]| ==> from <= s.queues[i][k]
    case NewEpoch(at) => s.live <= at <= |src.log|
  }

  function Next(src: Source, s: State, a: Step): State
    requires Enabled(src, s, a)
  {
    match a
    case DumpRow(id, at) =>
      if id in s.rows then s else s.(rows := s.rows[id := Staged(TableAt(src, at)[id], false)])
    case FinishDump(_) => s.(dumped := true)
    case ReadLive =>
      var c := src.log[s.live];
      s.(rows := AbsorbRows(s.rows, c), live := s.live + 1,
         queues := if Absorbed(s.rows, c) then s.queues else seq(|s.queues|, i requires 0 <= i < |s.queues| => s.queues[i] + [s.live]))
    case ApplyLive(i) =>
      s.(queues := s.queues[i := s.queues[i][1..]], sinks := s.sinks[i := ApplySink(s.sinks[i], src.log[s.queues[i][0]])])
    case Claim(w, ids) =>
      s.(rows := ClaimRows(s.rows, ids),
         workers := s.workers[w := Work(seq(|ids|, k requires 0 <= k < |ids| => (ids[k], s.rows[ids[k]].text)), 0, 0)])
    case Give(w) =>
      var work := s.workers[w];
      s.(sinks := s.sinks[work.given := PutAll(s.sinks[work.given], work.held)],
         workers := s.workers[w := work.(given := work.given + 1)],
         calls := s.calls + [(work.given, work.held)])
    case MarkDone(w) =>
      var work := s.workers[w];
      s.(rows := s.rows - {work.held[work.marked].0},
         workers := if work.marked + 1 == |work.held| then s.workers - {w} else s.workers[w := work.(marked := work.marked + 1)])
    case Die(w) => s.(workers := s.workers - {w})
    case Restart(from) =>
      s.(rows := Unclaimed(s.rows), live := from, queues := seq(|s.queues|, i => []), workers := map[])
    case NewEpoch(at) =>
      s.(rows := map[], dumped := false, slot := at, live := at, queues := seq(|s.queues|, i => []), workers := map[])
  }

  // ---------- claims, in every run ----------

  predicate HeldBy(work: Work, id: Id) {
    exists k :: work.marked <= k < |work.held| && work.held[k].0 == id
  }

  /** The sink has been called with the batch. */
  predicate Called(calls: seq<(nat, seq<(Id, Text)>)>, i: nat, held: seq<(Id, Text)>) {
    (i, held) in calls
  }

  ghost predicate ClaimsOk(s: State) {
    && (!s.dumped ==> s.workers == map[])
    && (forall w :: w in s.workers ==> WorkOk(s.rows, s.calls, |s.sinks|, s.workers[w]))
    && (forall v, w, id :: v in s.workers && w in s.workers && HeldBy(s.workers[v], id) && HeldBy(s.workers[w], id) ==> v == w)
  }

  ghost predicate WorkOk(rows: Rows, calls: seq<(nat, seq<(Id, Text)>)>, sinks: nat, work: Work) {
    && work.given <= sinks && work.marked <= |work.held| && (work.given < sinks ==> work.marked == 0)
    && (forall j, k :: 0 <= j < k < |work.held| ==> work.held[j].0 != work.held[k].0)
    && (forall i :: 0 <= i < work.given ==> Called(calls, i, work.held))
    && (forall id :: HeldBy(work, id) && id in rows ==> rows[id].claimed)
  }

  /** The worker's rows, sinks and marks may move on; what it still holds only shrinks. */
  lemma WorkKept(rows: Rows, calls: seq<(nat, seq<(Id, Text)>)>, sinks: nat, work: Work, rows': Rows,
                 more: seq<(nat, seq<(Id, Text)>)>)
    requires WorkOk(rows, calls, sinks, work)
    requires forall id :: id in rows' ==> id in rows && (rows[id].claimed ==> rows'[id].claimed)
    ensures WorkOk(rows', calls + more, sinks, work)
  {
    forall i | 0 <= i < work.given ensures Called(calls + more, i, work.held) {
      assert Called(calls, i, work.held);
    }
  }

  lemma ClaimKeepsApart(src: Source, s: State, w: WorkerId, ids: seq<Id>)
    requires Enabled(src, s, Claim(w, ids)) && ClaimsOk(s)
    ensures ClaimsOk(Next(src, s, Claim(w, ids)))
  {}

  lemma GiveKeepsApart(src: Source, s: State, w: WorkerId)
    requires Enabled(src, s, Give(w)) && ClaimsOk(s)
    ensures ClaimsOk(Next(src, s, Give(w)))
  {
    hide PutAll;
    var s', work := Next(src, s, Give(w)), s.workers[w];
    forall v | v in s.workers ensures WorkOk(s.rows, s'.calls, |s.sinks|, s.workers[v]) {
      WorkKept(s.rows, s.calls, |s.sinks|, s.workers[v], s.rows, [(work.given, work.held)]);
    }
    assert s'.calls[|s.calls|] == (work.given, work.held);
    forall id ensures HeldBy(s'.workers[w], id) == HeldBy(work, id) {}
  }

  lemma MarkKeepsApart(src: Source, s: State, w: WorkerId)
    requires Enabled(src, s, MarkDone(w)) && ClaimsOk(s)
    ensures ClaimsOk(Next(src, s, MarkDone(w)))
  {}

  /** One step keeps the claims apart. */
  lemma ClaimsKept(src: Source, s: State, a: Step)
    requires Enabled(src, s, a) && ClaimsOk(s)
    ensures ClaimsOk(Next(src, s, a))
  {
    hide PutAll, TableAt, ApplySink;
    match a
    case Claim(w, ids) => ClaimKeepsApart(src, s, w, ids);
    case Give(w) => GiveKeepsApart(src, s, w);
    case MarkDone(w) => MarkKeepsApart(src, s, w);
    case _ => hide HeldBy;
  }

  // ---------- runs ----------

  ghost predicate IsRun(src: Source, states: seq<State>, steps: seq<Step>) {
    && |states| == |steps| + 1
    && forall i :: 0 <= i < |steps| ==> Enabled(src, states[i], steps[i]) && states[i + 1] == Next(src, states[i], steps[i])
  }

  predicate Initial(s: State) {
    && s.rows == map[] && !s.dumped && s.slot == 0 == s.live && s.workers == map[] && s.calls == []
    && |s.queues| == |s.sinks|
    && (forall i :: 0 <= i < |s.queues| ==> s.queues[i] == [])
    && (forall i :: 0 <= i < |s.sinks| ==> s.sinks[i] == map[])
  }

  lemma {:induction false} ClaimsAlong(src: Source, states: seq<State>, steps: seq<Step>, n: nat)
    requires IsRun(src, states, steps) && Initial(states[0]) && n <= |steps|
    ensures ClaimsOk(states[n])
  {
    hide Enabled, Next;
    if n > 0 {
      ClaimsAlong(src, states, steps, n - 1);
      hide ClaimsOk;
      assert states[n - 1 + 1] == Next(src, states[n - 1], steps[n - 1]);
      ClaimsKept(src, states[n - 1], steps[n - 1]);
    }
  }

  ghost predicate DeliveredBy(s: State, work: Work, id: Id) {
    && (exists k :: 0 <= k < |work.held| && work.held[k].0 == id)
    && (forall i :: 0 <= i < |s.sinks| ==> Called(s.calls, i, work.held))
  }

  /** Why a staged row may leave the store: a worker marked it done after every sink had been called with
      it, the source deleted it, or the slot was created anew. */
  ghost predicate MayLeave(src: Source, s: State, a: Step, id: Id) {
    || (a.MarkDone? && a.worker in s.workers && DeliveredBy(s, s.workers[a.worker], id))
    || (a.ReadLive? && s.live < |src.log| && src.log[s.live] == Del(id))
    || a.NewEpoch?
  }

  /** Over every run, with workers dying and the process restarting anywhere. */
  lemma RowsLeaveOnlyWhenDone(src: Source, states: seq<State>, steps: seq<Step>, n: nat, id: Id)
    requires IsRun(src, states, steps) && Initial(states[0]) && n < |steps|
    requires id in states[n].rows && id !in states[n + 1].rows
    ensures MayLeave(src, states[n], steps[n], id)
  {
    ClaimsAlong(src, states, steps, n);
  }

  /** No two workers hold the same row. */
  lemma ClaimsAreExclusive(src: Source, states: seq<State>, steps: seq<Step>, n: nat, v: WorkerId, w: WorkerId, id: Id)
    requires IsRun(src, states, steps) && Initial(states[0]) && n <= |steps|
    requires v in states[n].workers && w in states[n].workers && HeldBy(states[n].workers[v], id)
    requires HeldBy(states[n].workers[w], id)
    ensures v == w && (id in states[n].rows ==> states[n].rows[id].claimed)
  {
    ClaimsAlong(src, states, steps, n);
  }

  /** Every claimed row is held by a worker. */
  ghost predicate NoOrphans(s: State) {
    forall id :: id in s.rows && s.rows[id].claimed ==> exists w :: w in s.workers && HeldBy(s.workers[w], id)
  }

  lemma ClaimedIsHeld(src: Source, s: State, w: WorkerId, ids: seq<Id>, id: Id)
    requires Enabled(src, s, Claim(w, ids)) && id in ids
    ensures var t := Next(src, s, Claim(w, ids)); w in t.workers && HeldBy(t.workers[w], id)
  {
    var t := Next(src, s, Claim(w, ids));
    var k :| 0 <= k < |ids| && ids[k] == id;
    assert t.workers[w].held[k].0 == id;
  }

  /** A worker that marks one of its rows done still holds the others. */
  lemma MarkedIsHeld(src: Source, s: State, w: WorkerId, v: WorkerId, id: Id)
    requires Enabled(src, s, MarkDone(w)) && v in s.workers && HeldBy(s.workers[v], id)
    requires id != s.workers[w].held[s.workers[w].marked].0
    ensures var t := Next(src, s, MarkDone(w)); v in t.workers && HeldBy(t.workers[v], id)
  {
    var k :| s.workers[v].marked <= k < |s.workers[v].held| && s.workers[v].held[k].0 == id;
    var t := Next(src, s, MarkDone(w));
    assert v in t.workers && t.workers[v].marked <= k;
  }

  lemma OrphanStep(src: Source, s: State, a: Step)
    requires NoOrphans(s) && Enabled(src, s, a) && !a.Die?
    ensures NoOrphans(Next(src, s, a))
  {
    var t := Next(src, s, a);
    forall id | id in t.rows && t.rows[id].claimed ensures exists w :: w in t.workers && HeldBy(t.workers[w], id) {
      if a.Claim? && id in a.ids {
        ClaimedIsHeld(src, s, a.worker, a.ids, id);
      } else {
        var w :| w in s.workers && HeldBy(s.workers[w], id);
        if a.MarkDone? { MarkedIsHeld(src, s, a.worker, w, id); }
        if a.Give? { GivenIsHeld(src, s, a.worker, w, id); }
        assert w in t.workers && HeldBy(t.workers[w], id);
      }
    }
  }

  lemma GivenIsHeld(src: Source, s: State, w: WorkerId, v: WorkerId, id: Id)
    requires Enabled(src, s, Give(w)) && v in s.workers && HeldBy(s.workers[v], id)
    ensures var t := Next(src, s, Give(w)); v in t.workers && HeldBy(t.workers[v], id)
  {
    hide PutAll;
    var k :| s.workers[v].marked <= k < |s.workers[v].held| && s.workers[v].held[k].0 == id;
    var t := Next(src, s, Give(w));
    assert t.workers[v].held[k].0 == id;
  }

  /** As long as no worker dies, no claimed row is forgotten: some worker holds it. After a restart none is claimed. */
  lemma {:induction false} NoOrphansAlong(src: Source, states: seq<State>, steps: seq<Step>, from: nat, n: nat)
    requires IsRun(src, states, steps) && from <= n <= |steps| && forall j :: from <= j < n ==> !steps[j].Die?
    requires Initial(states[from]) || (from > 0 && steps[from - 1].Restart?)
    ensures NoOrphans(states[n])
  {
    if n == from {
      if from > 0 && steps[from - 1].Restart? { assert states[from - 1 + 1] == Next(src, states[from - 1], steps[from - 1]); }
    } else {
      NoOrphansAlong(src, states, steps, from, n - 1);
      hide NoOrphans, Enabled, Next;
      assert states[n - 1 + 1] == Next(src, states[n - 1], steps[n - 1]);
      OrphanStep(src, states[n - 1], steps[n - 1]);
    }
  }
}
