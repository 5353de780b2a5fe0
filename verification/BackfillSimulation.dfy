/** The store, the workers, the dispatcher's queues and the embedding sinks, seen through one mapped table, take
    the steps of BackfillRun: what the run proves about ids and texts is so of them. */
module BackfillSimulation {

  import opened Wrappers
  import opened Events
  import opened Sink
  import opened SinkView
  import opened Backfill
  import opened BackfillRefinement
  import R = BackfillRun

  /** The staged rows, each sink's table and the events on their way to it, and what each worker has claimed. */
  datatype World = World(rows: Rows, sinks: seq<Table>, queues: seq<seq<Event>>, workers: map<R.WorkerId, seq<ClaimedRow>>)

  /** The queued events announce the changes at the queued positions. */
  ghost predicate Queued(src: R.Source, m: Mapping, events: seq<Event>, queue: seq<nat>) {
    && |events| == |queue|
    && forall k :: 0 <= k < |queue| ==> queue[k] < |src.log| && Announces(m, src.log[queue[k]], events[k])
  }

  ghost predicate Holds(m: Mapping, claimed: seq<ClaimedRow>, held: seq<(string, string)>) {
    |claimed| == |held| && forall k :: 0 <= k < |held| ==> Brings(m, claimed[k], held[k])
  }

  ghost predicate Shows(src: R.Source, m: Mapping, w: World, s: R.State) {
    && View(m, w.rows) == s.rows
    && |w.sinks| == |s.sinks| && |w.queues| == |s.queues|
    && (forall i :: 0 <= i < |w.sinks| ==> SinkTexts(m, w.sinks[i]) == s.sinks[i])
    && (forall i :: 0 <= i < |w.queues| ==> Queued(src, m, w.queues[i], s.queues[i]))
    && w.workers.Keys == s.workers.Keys
    && (forall v :: v in s.workers ==> Holds(m, w.workers[v], s.workers[v].held))
  }

  lemma SinkSet(src: R.Source, m: Mapping, w: World, s: R.State, i: nat, table: Table)
    requires Shows(src, m, w, s) && i < |w.sinks|
    ensures Shows(src, m, w.(sinks := w.sinks[i := table]), s.(sinks := s.sinks[i := SinkTexts(m, table)]))
  {
    hide View, SinkTexts, Queued, Holds;
  }

  lemma QueuePopped(src: R.Source, m: Mapping, w: World, s: R.State, i: nat)
    requires Shows(src, m, w, s) && i < |w.queues| && w.queues[i] != []
    ensures s.queues[i] != []
    ensures Shows(src, m, w.(queues := w.queues[i := w.queues[i][1..]]), s.(queues := s.queues[i := s.queues[i][1..]]))
  {
    hide View, SinkTexts, Holds, Announces;
    assert Queued(src, m, w.queues[i], s.queues[i]);
    assert Queued(src, m, w.queues[i][1..], s.queues[i][1..]);
  }

  lemma HeadQueued(src: R.Source, m: Mapping, w: World, s: R.State, i: nat)
    requires Shows(src, m, w, s) && i < |s.queues| && s.queues[i] != []
    ensures i < |w.queues| && w.queues[i] != [] && s.queues[i][0] < |src.log|
    ensures Announces(m, src.log[s.queues[i][0]], w.queues[i][0])
  {
    hide View, SinkTexts, Holds, Announces;
    assert Queued(src, m, w.queues[i], s.queues[i]);
  }

  lemma ChangeHasText(src: R.Source, p: nat)
    requires R.Consistent(src) && p < |src.log|
    ensures src.log[p].Del? || src.log[p].text != ""
  {
    assert R.Fits(R.TableAt(src, p), src.log[p]);
    hide R.TableAt;
  }

  /** The dump stages a selected row. */
  lemma StageIsDump(src: R.Source, m: Mapping, w: World, s: R.State, id: string, at: nat, data: Json)
    requires Shows(src, m, w, s) && R.Enabled(src, s, R.DumpRow(id, at)) && id != ""
    requires TextOf(m, data) == R.TableAt(src, at)[id]
    ensures Shows(src, m, w.(rows := Stage(w.rows, m.table, [(id, data)])), R.Next(src, s, R.DumpRow(id, at)))
  {
    StageOne(w.rows, m.table, id, data);
    InsertRefines(m, w.rows, id, data);
    ViewIsView(m, w.rows);
    hide View, SinkTexts, Queued, Holds, TextOf, R.TableAt, Stage;
  }

  lemma StageOne(rows: Rows, table: string, id: string, data: Json)
    requires id != ""
    ensures Stage(rows, table, [(id, data)]) ==
      if RowKey(table, id) in rows then rows else rows[RowKey(table, id) := Staged(data, false)]
  {
    assert [(id, data)][..0] == [];
  }

  /** The source reads the next event: it is merged into the store, or posted to every sink. */
  lemma AbsorbIsRead(src: R.Source, mappings: seq<Mapping>, m: Mapping, w: World, s: R.State, ev: Event)
    requires Shows(src, m, w, s) && R.Enabled(src, s, R.ReadLive) && Find(mappings, m.table) == Some(m)
    requires Announces(m, src.log[s.live], ev)
    ensures var (rows, absorbed) := Absorb(mappings, w.rows, ev);
      Shows(src, m,
            w.(rows := rows, queues := if absorbed then w.queues else PostAll(w.queues, ev)),
            R.Next(src, s, R.ReadLive))
  {
    AbsorbRefines(mappings, m, w.rows, src.log[s.live], ev);
    hide View, SinkTexts, Holds, Announces, Absorb, R.AbsorbRows, R.Absorbed;
  }

  function PostAll(queues: seq<seq<Event>>, ev: Event): seq<seq<Event>> {
    seq(|queues|, i requires 0 <= i < |queues| => queues[i] + [ev])
  }

  /** A sink applies the event at the head of its queue. */
  lemma AfterIsApply(src: R.Source, embed: string -> Vec, mappings: seq<Mapping>, m: Mapping, w: World, s: R.State, i: nat)
    requires R.Consistent(src) && Shows(src, m, w, s) && R.Enabled(src, s, R.ApplyLive(i)) && Find(mappings, m.table) == Some(m)
    requires Embeds(embed)
    ensures i < |w.sinks| && i < |w.queues| && w.queues[i] != []
    ensures Shows(src, m,
                  w.(sinks := w.sinks[i := After(embed, mappings, w.sinks[i], w.queues[i][0])],
                     queues := w.queues[i := w.queues[i][1..]]),
                  R.Next(src, s, R.ApplyLive(i)))
  {
    HeadQueued(src, m, w, s, i);
    SameSizes(src, m, w, s);
    var p := s.queues[i][0];
    ChangeHasText(src, p);
    LiveRefines(embed, mappings, m, w.sinks[i], src.log[p], w.queues[i][0]);
    ApplySpelled(src, s, i);
    hide *;
    var table := After(embed, mappings, w.sinks[i], w.queues[i][0]);
    SinkSet(src, m, w, s, i, table);
    var w', s' := w.(sinks := w.sinks[i := table]), s.(sinks := s.sinks[i := SinkTexts(m, table)]);
    QueuePopped(src, m, w', s', i);
    SinkIs(src, m, w, s, i);
  }

  lemma SameSizes(src: R.Source, m: Mapping, w: World, s: R.State)
    requires Shows(src, m, w, s)
    ensures |w.sinks| == |s.sinks| && |w.queues| == |s.queues| && w.workers.Keys == s.workers.Keys
  {
    hide View, SinkTexts, Queued, Holds;
  }

  lemma SinkIs(src: R.Source, m: Mapping, w: World, s: R.State, i: nat)
    requires Shows(src, m, w, s) && i < |w.sinks|
    ensures i < |s.sinks| && SinkTexts(m, w.sinks[i]) == s.sinks[i]
  {
    hide View, SinkTexts, Queued, Holds;
  }

  lemma ApplySpelled(src: R.Source, s: R.State, i: nat)
    requires R.Enabled(src, s, R.ApplyLive(i))
    ensures R.Next(src, s, R.ApplyLive(i)) ==
      s.(sinks := s.sinks[i := R.ApplySink(s.sinks[i], src.log[s.queues[i][0]])], queues := s.queues[i := s.queues[i][1..]])
  {
    hide R.ApplySink;
  }

  lemma GiveSpelled(src: R.Source, s: R.State, v: R.WorkerId)
    requires R.Enabled(src, s, R.Give(v))
    ensures v in s.workers && s.workers[v].given < |s.sinks|
    ensures var work := s.workers[v];
      R.Next(src, s, R.Give(v)) ==
        s.(sinks := s.sinks[work.given := R.PutAll(s.sinks[work.given], work.held)],
           workers := s.workers[v := work.(given := work.given + 1)], calls := s.calls + [(work.given, work.held)])
  {
    hide R.PutAll;
  }

  lemma WorkerIs(src: R.Source, m: Mapping, w: World, s: R.State, v: R.WorkerId)
    requires Shows(src, m, w, s) && v in s.workers
    ensures v in w.workers && Holds(m, w.workers[v], s.workers[v].held)
  {
    hide View, SinkTexts, Queued, Holds;
    assert v in w.workers.Keys;
  }

  lemma WorkerGave(src: R.Source, m: Mapping, w: World, s: R.State, v: R.WorkerId, calls: seq<(nat, seq<(string, string)>)>)
    requires Shows(src, m, w, s) && v in s.workers
    ensures Shows(src, m, w, s.(workers := s.workers[v := s.workers[v].(given := s.workers[v].given + 1)], calls := calls))
  {
    hide View, SinkTexts, Queued, Holds;
  }

  lemma EachBrings(m: Mapping, claimed: seq<ClaimedRow>, held: seq<(string, string)>)
    requires Holds(m, claimed, held)
    ensures |held| == |claimed| && forall i :: 0 <= i < |claimed| ==> Brings(m, claimed[i], held[i])
  {
    hide Brings;
  }

  /** A worker claims rows. */
  lemma ClaimIsClaim(src: R.Source, m: Mapping, w: World, s: R.State, v: R.WorkerId, ids: seq<string>,
                     claimed: seq<ClaimedRow>, after: Rows)
    requires Shows(src, m, w, s) && R.Enabled(src, s, R.Claim(v, ids))
    requires Held(claimed, w.rows) && Claimed(w.rows, claimed, after) && |claimed| == |ids|
    requires forall k :: 0 <= k < |ids| ==>
      claimed[k].key == RowKey(m.table, ids[k]) && Brings(m, claimed[k], (ids[k], TextOf(m, claimed[k].data)))
    ensures Shows(src, m, w.(rows := after, workers := w.workers[v := claimed]), R.Next(src, s, R.Claim(v, ids)))
  {
    ClaimRefines(m, w.rows, claimed, after, ids);
    ClaimSpelled(src, s, v, ids);
    forall k | 0 <= k < |ids| ensures s.rows[ids[k]].text == TextOf(m, claimed[k].data) {
      StagedText(src, m, w, s, claimed, ids, k);
    }
    hide View, SinkTexts, Queued, TextOf, R.ClaimRows, R.Next, R.Enabled, Claimed, Held, Brings, HeldTexts;
    HoldsClaimed(m, s.rows, claimed, ids);
    WorkerClaimed(src, m, w, s, v, claimed, HeldTexts(s.rows, ids), after, R.ClaimRows(s.rows, ids));
  }

  function HeldTexts(rows: R.Rows, ids: seq<string>): seq<(string, string)>
    requires forall k :: 0 <= k < |ids| ==> ids[k] in rows
  {
    seq(|ids|, k requires 0 <= k < |ids| => (ids[k], rows[ids[k]].text))
  }

  lemma ClaimSpelled(src: R.Source, s: R.State, v: R.WorkerId, ids: seq<string>)
    requires R.Enabled(src, s, R.Claim(v, ids))
    ensures forall k :: 0 <= k < |ids| ==> ids[k] in s.rows
    ensures R.Next(src, s, R.Claim(v, ids)) ==
      s.(rows := R.ClaimRows(s.rows, ids), workers := s.workers[v := R.Work(HeldTexts(s.rows, ids), 0, 0)])
  {
    hide R.ClaimRows;
    assert R.Next(src, s, R.Claim(v, ids)).workers[v].held == HeldTexts(s.rows, ids);
  }

  lemma StagedText(src: R.Source, m: Mapping, w: World, s: R.State, claimed: seq<ClaimedRow>, ids: seq<string>, k: nat)
    requires Shows(src, m, w, s) && Held(claimed, w.rows) && k < |ids| == |claimed| && ids[k] in s.rows
    requires claimed[k].key == RowKey(m.table, ids[k])
    ensures s.rows[ids[k]].text == TextOf(m, claimed[k].data)
  {
    ViewIsView(m, w.rows);
    hide View, SinkTexts, Queued, TextOf, Holds;
  }

  lemma HoldsClaimed(m: Mapping, rows: R.Rows, claimed: seq<ClaimedRow>, ids: seq<string>)
    requires |claimed| == |ids| && forall k :: 0 <= k < |ids| ==> ids[k] in rows
    requires forall k :: 0 <= k < |ids| ==> Brings(m, claimed[k], (ids[k], rows[ids[k]].text))
    ensures Holds(m, claimed, HeldTexts(rows, ids))
  {
    hide Brings;
  }

  lemma WorkerClaimed(src: R.Source, m: Mapping, w: World, s: R.State, v: R.WorkerId, claimed: seq<ClaimedRow>,
                      held: seq<(string, string)>, after: Rows, rows: R.Rows)
    requires Shows(src, m, w, s) && Holds(m, claimed, held) && View(m, after) == rows
    ensures Shows(src, m, w.(rows := after, workers := w.workers[v := claimed]),
                  s.(rows := rows, workers := s.workers[v := R.Work(held, 0, 0)]))
  {
    hide View, SinkTexts, Queued, Holds;
  }

  /** A worker calls a sink with the insert events of its rows. */
  lemma CallIsGive(src: R.Source, embed: string -> Vec, mappings: seq<Mapping>, m: Mapping, w: World, s: R.State, v: R.WorkerId)
    requires Shows(src, m, w, s) && R.Enabled(src, s, R.Give(v)) && Find(mappings, m.table) == Some(m) && Embeds(embed)
    ensures v in w.workers && s.workers[v].given < |w.sinks|
    ensures var i := s.workers[v].given;
      Shows(src, m,
            w.(sinks := w.sinks[i := Run(embed, w.sinks[i], Actions(mappings, EventsOf(w.workers[v])))]),
            R.Next(src, s, R.Give(v)))
  {
    hide *;
    GiveSpelled(src, s, v);
    var i := s.workers[v].given;
    SameSizes(src, m, w, s);
    WorkerIs(src, m, w, s, v);
    EachBrings(m, w.workers[v], s.workers[v].held);
    GiveRefines(embed, mappings, m, w.sinks[i], w.workers[v], s.workers[v].held);
    var table := Run(embed, w.sinks[i], Actions(mappings, EventsOf(w.workers[v])));
    SinkIs(src, m, w, s, i);
    SinkSet(src, m, w, s, i, table);
    WorkerGave(src, m, w.(sinks := w.sinks[i := table]), s.(sinks := s.sinks[i := SinkTexts(m, table)]), v,
               s.calls + [(i, s.workers[v].held)]);
  }

  /** A worker marks its next row done, and is through after the last. */
  lemma MarkIsMark(src: R.Source, m: Mapping, w: World, s: R.State, v: R.WorkerId)
    requires Shows(src, m, w, s) && R.Enabled(src, s, R.MarkDone(v))
    ensures v in w.workers && s.workers[v].marked < |w.workers[v]|
    ensures var work := s.workers[v];
      Shows(src, m,
            w.(rows := w.rows - {w.workers[v][work.marked].key},
               workers := if work.marked + 1 == |w.workers[v]| then w.workers - {v} else w.workers),
            R.Next(src, s, R.MarkDone(v)))
  {
    assert v in w.workers.Keys && Holds(m, w.workers[v], s.workers[v].held);
    var work := s.workers[v];
    assert Brings(m, w.workers[v][work.marked], work.held[work.marked]);
    MarkDoneRefines(m, w.rows, work.held[work.marked].0);
    hide View, SinkTexts, Queued, Holds;
  }

  /** The process starts again on the same slot: claims are given back, and what was queued is gone. */
  lemma RestartIsRestart(src: R.Source, m: Mapping, w: World, s: R.State, from: nat)
    requires Shows(src, m, w, s) && R.Enabled(src, s, R.Restart(from))
    ensures Shows(src, m, World(Unclaimed(w.rows), w.sinks, seq(|w.queues|, i => []), map[]), R.Next(src, s, R.Restart(from)))
  {
    ResetRefines(m, w.rows, Unclaimed(w.rows));
    hide View, SinkTexts, Unclaimed, R.Unclaimed;
  }

  /** A new slot: the store starts over. */
  lemma ResetIsEpoch(src: R.Source, m: Mapping, w: World, s: R.State, at: nat)
    requires Shows(src, m, w, s) && R.Enabled(src, s, R.NewEpoch(at))
    ensures Shows(src, m, World(map[], w.sinks, seq(|w.queues|, i => []), map[]), R.Next(src, s, R.NewEpoch(at)))
  {
    assert View(m, map[]) == map[];
    hide View, SinkTexts;
  }
}
