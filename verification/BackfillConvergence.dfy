/** When backfill and live streaming have both finished, does every sink hold the source table? Exactly
    two steps of a worker and the creation of a new slot can spoil it, each under a condition that is
    given here; every run whose steps meet the conditions converges, and a step that does not is never
    made good, unless a restart reads the row's change again or a new slot dumps it. */
module BackfillConvergence {

  import opened Wrappers
  import opened BackfillRun

  /** A change of the row that the sinks act on is still to be read at or after `from`. */
  ghost predicate Ahead(src: Source, id: Id, from: nat) {
    exists p :: from <= p < |src.log| && Writes(src.log[p], id)
  }

  predicate InLog(src: Source, queue: seq<nat>) {
    forall k :: 0 <= k < |queue| ==> queue[k] < |src.log|
  }

  /** The last change of the row that is on its way to the sink. */
  function LastQueued(src: Source, queue: seq<nat>, id: Id): (r: Option<Change>)
    requires InLog(src, queue)
    ensures r.Some? ==> Writes(r.value, id)
  {
    if queue == [] then None
    else
      var later := LastQueued(src, queue[1..], id);
      if later.None? && Writes(src.log[queue[0]], id) then Some(src.log[queue[0]]) else later
  }

  /** What the sink will hold for the row when its queue has been applied. */
  function Drained(src: Source, v: Option<Text>, queue: seq<nat>, id: Id): Option<Text>
    requires InLog(src, queue)
  {
    var last := LastQueued(src, queue, id);
    if last.Some? then Act(v, last.value, id) else v
  }

  // ---------- the source ----------

  lemma AtStep(src: Source, id: Id, p: nat)
    requires Consistent(src) && p < |src.log|
    ensures At(src, id, p + 1) == Act(At(src, id, p), src.log[p], id)
    ensures src.log[p].Ins? && src.log[p].id == id ==> At(src, id, p) == None
  {
    assert Fits(TableAt(src, p), src.log[p]);
  }

  /** With no change ahead the row stays as it is. */
  lemma {:induction false} StaysPut(src: Source, id: Id, from: nat, q: nat)
    requires Consistent(src) && from <= q <= |src.log| && !Ahead(src, id, from)
    ensures At(src, id, q) == At(src, id, from)
  {
    hide At, Consistent;
    if from < q {
      StaysPut(src, id, from, q - 1);
      AtStep(src, id, q - 1);
    }
  }

  lemma EndIsNow(src: Source, id: Id, live: nat)
    requires Consistent(src) && live <= |src.log| && !Ahead(src, id, live)
    ensures At(src, id, |src.log|) == At(src, id, live)
  {
    StaysPut(src, id, live, |src.log|);
  }

  // ---------- a sink's queue ----------

  lemma {:induction false} LastQueuedSnoc(src: Source, queue: seq<nat>, p: nat, id: Id)
    requires InLog(src, queue) && p < |src.log|
    ensures InLog(src, queue + [p])
    ensures LastQueued(src, queue + [p], id) == if Writes(src.log[p], id) then Some(src.log[p]) else LastQueued(src, queue, id)
  {
    if queue == [] {
      assert [] + [p] == [p];
    } else {
      assert (queue + [p])[1..] == queue[1..] + [p];
      LastQueuedSnoc(src, queue[1..], p, id);
    }
  }

  /** Applying the first change of the queue does not change what comes out. */
  lemma HeadApplied(src: Source, v: Option<Text>, queue: seq<nat>, id: Id)
    requires InLog(src, queue) && queue != []
    ensures InLog(src, queue[1..])
    ensures Drained(src, Act(v, src.log[queue[0]], id), queue[1..], id) == Drained(src, v, queue, id)
  {}

  /** What is queued at or after `from` is ahead of a reader that starts there. */
  lemma {:induction false} QueuedIsAhead(src: Source, queue: seq<nat>, id: Id, from: nat)
    requires InLog(src, queue) && forall k :: 0 <= k < |queue| ==> from <= queue[k]
    requires LastQueued(src, queue, id).Some?
    ensures Ahead(src, id, from)
  {
    if LastQueued(src, queue[1..], id).Some? { QueuedIsAhead(src, queue[1..], id, from); }
  }

  // ---------- the invariant ----------

  /** A staged row holds a text the source has had at or after the live position. */
  ghost predicate Recent(src: Source, rows: Rows, live: nat)
    requires live <= |src.log|
  {
    forall id :: id in rows ==> RecentText(src, id, rows[id].text, live)
  }

  ghost predicate RecentText(src: Source, id: Id, text: Text, live: nat)
    requires live <= |src.log|
  {
    exists q :: live <= q <= |src.log| && At(src, id, q) == Some(text)
  }

  /** A row that is not staged ends up right in the sink: by a change still ahead, or by what is in the
      sink and its queue already. */
  ghost predicate Settled(src: Source, id: Id, live: nat, queue: seq<nat>, sink: map<Id, Text>)
    requires InLog(src, queue)
  {
    Ahead(src, id, live) || Drained(src, Look(sink, id), queue, id) == At(src, id, |src.log|)
  }

  ghost predicate AllSettled(src: Source, rows: Rows, live: nat, queue: seq<nat>, sink: map<Id, Text>)
    requires InLog(src, queue)
  {
    forall id :: id !in rows ==> Settled(src, id, live, queue, sink)
  }

  /** Nothing in the sink is gone from the source for good at position `at`. */
  ghost predicate NothingStale(src: Source, sink: map<Id, Text>, at: nat)
    requires at <= |src.log|
  {
    forall id :: id in sink ==> Ahead(src, id, at) || At(src, id, at).Some?
  }

  ghost predicate Shape(src: Source, s: State) {
    && s.slot <= s.live <= |src.log| && |s.queues| == |s.sinks|
    && (forall i :: 0 <= i < |s.queues| ==> InLog(src, s.queues[i]))
  }

  /** Before the dump is complete nothing is streamed. */
  ghost predicate SinksOk(src: Source, s: State)
    requires Shape(src, s)
  {
    if s.dumped then forall i :: 0 <= i < |s.sinks| ==> AllSettled(src, s.rows, s.live, s.queues[i], s.sinks[i])
    else s.live == s.slot && forall i :: 0 <= i < |s.sinks| ==> s.queues[i] == [] && NothingStale(src, s.sinks[i], s.live)
  }

  ghost predicate Inv(src: Source, s: State) {
    Shape(src, s) && ClaimsOk(s) && Recent(src, s.rows, s.live) && SinksOk(src, s)
  }

  // ---------- the conditions ----------

  /** Giving a sink a row that is no longer staged, because the source deleted it since the claim. */
  ghost predicate GiveOk(src: Source, id: Id, text: Text, live: nat, queue: seq<nat>)
    requires live <= |src.log| && InLog(src, queue)
  {
    Ahead(src, id, live) || LastQueued(src, queue, id).Some? || At(src, id, live) == Some(text)
  }

  /** Marking a staged row done: the sink's last queued change of it, or else the sink, has its text. */
  ghost predicate DoneOk(src: Source, id: Id, stored: Text, live: nat, queue: seq<nat>, sink: map<Id, Text>)
    requires InLog(src, queue)
  {
    || Ahead(src, id, live)
    || match LastQueued(src, queue, id)
       case Some(c) => !c.Del? && c.text == stored
       case None => Look(sink, id) == Some(stored)
  }

  ghost predicate StepOk(src: Source, s: State, a: Step)
    requires Shape(src, s) && Enabled(src, s, a)
  {
    match a
    case Give(w) =>
      var work := s.workers[w];
      forall k :: 0 <= k < |work.held| && work.held[k].0 !in s.rows ==>
        GiveOk(src, work.held[k].0, work.held[k].1, s.live, s.queues[work.given])
    case MarkDone(w) =>
      var id := s.workers[w].held[s.workers[w].marked].0;
      id in s.rows ==> forall i :: 0 <= i < |s.sinks| ==> DoneOk(src, id, s.rows[id].text, s.live, s.queues[i], s.sinks[i])
    case NewEpoch(at) => forall i :: 0 <= i < |s.sinks| ==> NothingStale(src, s.sinks[i], at)
    case _ => true
  }

  /** A row that is not staged stays right under a sink call exactly when no change of it is to come or
      queued and the call brings what the source has. */
  lemma GiveExact(src: Source, id: Id, text: Text, live: nat, queue: seq<nat>, sink: map<Id, Text>, sink': map<Id, Text>)
    requires Consistent(src) && live <= |src.log| && InLog(src, queue)
    requires Settled(src, id, live, queue, sink) && Look(sink', id) == Some(text)
    ensures Settled(src, id, live, queue, sink') <==> GiveOk(src, id, text, live, queue)
  {
    hide At, Consistent;
    if !Ahead(src, id, live) { EndIsNow(src, id, live); }
  }

  /** A staged row may leave the store exactly when each sink's last queued change of it, or else the sink
      itself, has the text that is staged, or a change of it is still to come. */
  lemma MarkDoneExact(src: Source, id: Id, stored: Text, live: nat, queue: seq<nat>, sink: map<Id, Text>)
    requires Consistent(src) && live <= |src.log| && InLog(src, queue) && RecentText(src, id, stored, live)
    ensures Settled(src, id, live, queue, sink) <==> DoneOk(src, id, stored, live, queue, sink)
  {
    hide At, Consistent;
    if !Ahead(src, id, live) {
      var q :| live <= q <= |src.log| && At(src, id, q) == Some(stored);
      StaysPut(src, id, live, q);
      EndIsNow(src, id, live);
    }
  }

  // ---------- the steps ----------

  lemma DumpRowKeeps(src: Source, s: State, id: Id, at: nat)
    requires Inv(src, s) && Enabled(src, s, DumpRow(id, at))
    ensures Inv(src, Next(src, s, DumpRow(id, at)))
  {
    hide NothingStale;
    ClaimsKept(src, s, DumpRow(id, at));
    assert At(src, id, at) == Some(TableAt(src, at)[id]);
  }

  lemma FinishDumpKeeps(src: Source, s: State, at: nat)
    requires Consistent(src) && Inv(src, s) && Enabled(src, s, FinishDump(at))
    ensures Inv(src, Next(src, s, FinishDump(at)))
  {
    ClaimsKept(src, s, FinishDump(at));
    hide Consistent, ClaimsOk, Recent;
    forall i, id | 0 <= i < |s.sinks| && id !in s.rows ensures Settled(src, id, s.live, s.queues[i], s.sinks[i]) {
      if !Ahead(src, id, s.live) {
        StaysPut(src, id, s.live, at);
        EndIsNow(src, id, s.live);
        assert NothingStale(src, s.sinks[i], s.live);
      }
    }
  }

  lemma ApplyKeeps(src: Source, s: State, i: nat)
    requires Inv(src, s) && Enabled(src, s, ApplyLive(i))
    ensures Inv(src, Next(src, s, ApplyLive(i)))
  {
    ClaimsKept(src, s, ApplyLive(i));
    hide ClaimsOk, Recent, At, Ahead, Drained;
    var s' := Next(src, s, ApplyLive(i));
    var c := src.log[s.queues[i][0]];
    assert InLog(src, s'.queues[i]);
    forall id | id !in s.rows ensures Settled(src, id, s.live, s'.queues[i], s'.sinks[i]) {
      assert Settled(src, id, s.live, s.queues[i], s.sinks[i]);
      assert Look(s'.sinks[i], id) == Act(Look(s.sinks[i], id), c, id);
      HeadApplied(src, Look(s.sinks[i], id), s.queues[i], id);
    }
  }

  /** Reading one change moves on what counts as recent. */
  lemma RecentMoves(src: Source, id: Id, text: Text, p: nat)
    requires Consistent(src) && p < |src.log| && RecentText(src, id, text, p)
    requires At(src, id, p) == At(src, id, p + 1) || At(src, id, p) != Some(text)
    ensures RecentText(src, id, text, p + 1)
  {
    hide At;
    var q :| p <= q <= |src.log| && At(src, id, q) == Some(text);
    if q == p { assert At(src, id, p + 1) == Some(text); }
  }

  lemma AbsorbKeepsRecent(src: Source, rows: Rows, p: nat)
    requires Consistent(src) && p < |src.log| && Recent(src, rows, p)
    ensures Recent(src, AbsorbRows(rows, src.log[p]), p + 1)
  {
    hide At, Consistent, RecentText;
    var c := src.log[p];
    forall id | id in AbsorbRows(rows, c) ensures RecentText(src, id, AbsorbRows(rows, c)[id].text, p + 1) {
      AtStep(src, id, p);
      if c.id == id && c.Upd? && c.sent != Omitted {
        SentIsCurrent(src, p);
      } else {
        RecentMoves(src, id, rows[id].text, p);
      }
    }
  }

  lemma SentIsCurrent(src: Source, p: nat)
    requires Consistent(src) && p < |src.log| && src.log[p].Upd?
    ensures RecentText(src, src.log[p].id, src.log[p].text, p + 1)
  {
    assert At(src, src.log[p].id, p + 1) == Some(src.log[p].text);
  }

  /** A change that is read and queued settles its row. */
  lemma QueuedIsSettled(src: Source, id: Id, p: nat, queue: seq<nat>, sink: map<Id, Text>)
    requires Consistent(src) && p < |src.log| && InLog(src, queue) && Writes(src.log[p], id)
    ensures InLog(src, queue + [p]) && Settled(src, id, p + 1, queue + [p], sink)
  {
    hide At, Consistent, LastQueued;
    LastQueuedSnoc(src, queue, p, id);
    AtStep(src, id, p);
    if !Ahead(src, id, p + 1) { EndIsNow(src, id, p + 1); }
  }

  /** A row stays settled when a change of another row is read, or its own change is queued. */
  lemma ReadKeepsSettled(src: Source, id: Id, p: nat, queue: seq<nat>, sink: map<Id, Text>)
    requires Consistent(src) && p < |src.log| && InLog(src, queue) && Settled(src, id, p, queue, sink)
    ensures InLog(src, queue + [p]) && Settled(src, id, p + 1, queue + [p], sink)
    ensures src.log[p].id != id ==> Settled(src, id, p + 1, queue, sink)
  {
    hide At, Consistent, LastQueued;
    LastQueuedSnoc(src, queue, p, id);
    if Writes(src.log[p], id) { QueuedIsSettled(src, id, p, queue, sink); }
  }

  lemma ReadKeepsAllSettled(src: Source, rows: Rows, p: nat, queue: seq<nat>, sink: map<Id, Text>)
    requires Consistent(src) && p < |src.log| && InLog(src, queue) && AllSettled(src, rows, p, queue, sink)
    ensures InLog(src, queue + [p])
    ensures var queue' := if Absorbed(rows, src.log[p]) then queue else queue + [p];
      AllSettled(src, AbsorbRows(rows, src.log[p]), p + 1, queue', sink)
  {
    hide Settled, Consistent;
    forall id | id !in AbsorbRows(rows, src.log[p])
      ensures Settled(src, id, p + 1, if Absorbed(rows, src.log[p]) then queue else queue + [p], sink)
    {
      if id in rows { QueuedIsSettled(src, id, p, queue, sink); }
      else { ReadKeepsSettled(src, id, p, queue, sink); }
    }
  }

  lemma ReadKeeps(src: Source, s: State)
    requires Consistent(src) && Inv(src, s) && Enabled(src, s, ReadLive)
    ensures Inv(src, Next(src, s, ReadLive))
  {
    hide Consistent, Recent, AllSettled, ClaimsOk, AbsorbRows, Absorbed;
    ClaimsKept(src, s, ReadLive);
    AbsorbKeepsRecent(src, s.rows, s.live);
    forall i | 0 <= i < |s.sinks|
      ensures var s' := Next(src, s, ReadLive);
        InLog(src, s'.queues[i]) && AllSettled(src, s'.rows, s'.live, s'.queues[i], s'.sinks[i])
    {
      ReadKeepsAllSettled(src, s.rows, s.live, s.queues[i], s.sinks[i]);
    }
  }

  lemma ClaimKeeps(src: Source, s: State, w: WorkerId, ids: seq<Id>)
    requires Inv(src, s) && Enabled(src, s, Claim(w, ids))
    ensures Inv(src, Next(src, s, Claim(w, ids)))
  {
    hide ClaimsOk, RecentText, Settled;
    ClaimsKept(src, s, Claim(w, ids));
    var s' := Next(src, s, Claim(w, ids));
    assert Recent(src, s'.rows, s.live);
    forall i | 0 <= i < |s.sinks| ensures AllSettled(src, s'.rows, s'.live, s'.queues[i], s'.sinks[i]) {
      assert AllSettled(src, s.rows, s.live, s.queues[i], s.sinks[i]);
    }
  }

  /** What was queued is read again after a restart. */
  lemma RestartKeepsSettled(src: Source, id: Id, live: nat, queue: seq<nat>, sink: map<Id, Text>, from: nat)
    requires InLog(src, queue) && from <= live && (forall k :: 0 <= k < |queue| ==> from <= queue[k])
    requires Settled(src, id, live, queue, sink)
    ensures Settled(src, id, from, [], sink)
  {
    hide At;
    if LastQueued(src, queue, id).Some? { QueuedIsAhead(src, queue, id, from); }
  }

  lemma RestartKeeps(src: Source, s: State, from: nat)
    requires Inv(src, s) && Enabled(src, s, Restart(from))
    ensures Inv(src, Next(src, s, Restart(from)))
  {
    ClaimsKept(src, s, Restart(from));
    hide Settled, ClaimsOk, NothingStale;
    var s' := Next(src, s, Restart(from));
    forall id | id in s.rows ensures RecentText(src, id, s.rows[id].text, from) {
      var q :| s.live <= q <= |src.log| && At(src, id, q) == Some(s.rows[id].text);
    }
    hide RecentText;
    forall i, id | s.dumped && 0 <= i < |s.sinks| && id !in s.rows ensures Settled(src, id, from, [], s.sinks[i]) {
      assert AllSettled(src, s.rows, s.live, s.queues[i], s.sinks[i]);
      RestartKeepsSettled(src, id, s.live, s.queues[i], s.sinks[i], from);
    }
  }

  lemma PutAllStep(sink: map<Id, Text>, held: seq<(Id, Text)>, id: Id)
    requires held != []
    ensures var n := |held| - 1;
      Look(PutAll(sink, held), id) == if held[n].0 == id then Some(held[n].1) else Look(PutAll(sink, held[..n]), id)
  {}

  lemma {:induction false} PutAllLook(sink: map<Id, Text>, held: seq<(Id, Text)>, id: Id)
    requires forall j, k :: 0 <= j < k < |held| ==> held[j].0 != held[k].0
    ensures (forall k :: 0 <= k < |held| ==> held[k].0 != id) ==> Look(PutAll(sink, held), id) == Look(sink, id)
    ensures forall k :: 0 <= k < |held| && held[k].0 == id ==> Look(PutAll(sink, held), id) == Some(held[k].1)
  {
    if held != [] {
      var n := |held| - 1;
      PutAllLook(sink, held[..n], id);
      forall k | 0 <= k < n ensures held[..n][k] == held[k] && held[k].0 != held[n].0 {}
      hide PutAll;
      PutAllStep(sink, held, id);
    }
  }

  /** A sink call keeps the rows right that are not staged exactly when it does so for each row it brings. */
  lemma GiveAllExact(src: Source, rows: Rows, live: nat, queue: seq<nat>, sink: map<Id, Text>, held: seq<(Id, Text)>)
    requires Consistent(src) && live <= |src.log| && InLog(src, queue) && AllSettled(src, rows, live, queue, sink)
    requires forall j, k :: 0 <= j < k < |held| ==> held[j].0 != held[k].0
    ensures AllSettled(src, rows, live, queue, PutAll(sink, held)) <==>
      forall k :: 0 <= k < |held| && held[k].0 !in rows ==> GiveOk(src, held[k].0, held[k].1, live, queue)
  {
    var sink' := PutAll(sink, held);
    hide PutAll, Settled, GiveOk, Consistent;
    forall k | 0 <= k < |held| && held[k].0 !in rows
      ensures Settled(src, held[k].0, live, queue, sink') <==> GiveOk(src, held[k].0, held[k].1, live, queue)
    {
      PutAllLook(sink, held, held[k].0);
      GiveExact(src, held[k].0, held[k].1, live, queue, sink, sink');
    }
    forall id | id !in rows && (forall k :: 0 <= k < |held| ==> held[k].0 != id) ensures Settled(src, id, live, queue, sink') {
      PutAllLook(sink, held, id);
      SameLookSettled(src, id, live, queue, sink, sink');
    }
  }

  lemma SameLookSettled(src: Source, id: Id, live: nat, queue: seq<nat>, sink: map<Id, Text>, sink': map<Id, Text>)
    requires InLog(src, queue) && Settled(src, id, live, queue, sink) && Look(sink', id) == Look(sink, id)
    ensures Settled(src, id, live, queue, sink')
  {}

  lemma GiveIff(src: Source, s: State, w: WorkerId)
    requires Consistent(src) && Inv(src, s) && Enabled(src, s, Give(w))
    ensures Inv(src, Next(src, s, Give(w))) <==> StepOk(src, s, Give(w))
  {
    ClaimsKept(src, s, Give(w));
    var work := s.workers[w];
    assert s.dumped && WorkOk(s.rows, s.calls, |s.sinks|, work);
    hide Consistent, Recent, AllSettled, PutAll, ClaimsOk, GiveOk;
    GiveAllExact(src, s.rows, s.live, s.queues[work.given], s.sinks[work.given], work.held);
  }

  lemma MarkIff(src: Source, s: State, w: WorkerId)
    requires Consistent(src) && Inv(src, s) && Enabled(src, s, MarkDone(w))
    ensures Inv(src, Next(src, s, MarkDone(w))) <==> StepOk(src, s, MarkDone(w))
  {
    ClaimsKept(src, s, MarkDone(w));
    assert s.dumped;
    hide Consistent, Settled, RecentText, DoneOk, ClaimsOk;
    var s', id := Next(src, s, MarkDone(w)), s.workers[w].held[s.workers[w].marked].0;
    forall i | 0 <= i < |s.sinks|
      ensures AllSettled(src, s'.rows, s.live, s.queues[i], s.sinks[i]) <==>
        (id in s.rows ==> DoneOk(src, id, s.rows[id].text, s.live, s.queues[i], s.sinks[i]))
    {
      assert AllSettled(src, s.rows, s.live, s.queues[i], s.sinks[i]);
      if id in s.rows { MarkDoneExact(src, id, s.rows[id].text, s.live, s.queues[i], s.sinks[i]); }
    }
  }

  lemma EpochIff(src: Source, s: State, at: nat)
    requires Inv(src, s) && Enabled(src, s, NewEpoch(at))
    ensures Inv(src, Next(src, s, NewEpoch(at))) <==> StepOk(src, s, NewEpoch(at))
  {
    ClaimsKept(src, s, NewEpoch(at));
    hide NothingStale, ClaimsOk;
  }

  /** Every step keeps the invariant exactly when it meets its condition. */
  lemma StepExact(src: Source, s: State, a: Step)
    requires Consistent(src) && Inv(src, s) && Enabled(src, s, a)
    ensures Inv(src, Next(src, s, a)) <==> StepOk(src, s, a)
  {
    match a
    case DumpRow(id, at) => DumpRowKeeps(src, s, id, at);
    case FinishDump(at) => FinishDumpKeeps(src, s, at);
    case ReadLive => ReadKeeps(src, s);
    case ApplyLive(i) => ApplyKeeps(src, s, i);
    case Claim(w, ids) => ClaimKeeps(src, s, w, ids);
    case Give(w) => GiveIff(src, s, w);
    case MarkDone(w) => MarkIff(src, s, w);
    case Die(w) => ClaimsKept(src, s, a);
    case Restart(from) => RestartKeeps(src, s, from);
    case NewEpoch(at) => EpochIff(src, s, at);
  }

  // ---------- whole runs ----------

  /** Steps `from` up to `to` meet their conditions. */
  ghost predicate AllOk(src: Source, states: seq<State>, steps: seq<Step>, from: nat, to: nat)
    requires IsRun(src, states, steps) && from <= to <= |steps|
  {
    forall j :: from <= j < to ==> Shape(src, states[j]) && StepOk(src, states[j], steps[j])
  }

  lemma InitialInv(src: Source, s: State)
    requires Initial(s)
    ensures Inv(src, s)
  {}

  lemma {:induction false} InvAlong(src: Source, states: seq<State>, steps: seq<Step>, n: nat)
    requires Consistent(src) && IsRun(src, states, steps) && Initial(states[0]) && n <= |steps|
    requires AllOk(src, states, steps, 0, n)
    ensures Inv(src, states[n])
  {
    hide Consistent, Inv, Initial, Enabled, Next, StepOk, Shape;
    if n == 0 {
      InitialInv(src, states[0]);
    } else {
      InvAlong(src, states, steps, n - 1);
      assert states[n - 1 + 1] == Next(src, states[n - 1], steps[n - 1]);
      InvShape(src, states[n - 1]);
      StepExact(src, states[n - 1], steps[n - 1]);
    }
  }

  lemma InvShape(src: Source, s: State)
    requires Inv(src, s)
    ensures Shape(src, s)
  {}

  /** Everything staged is drained, everything logged is read, and everything read is applied. */
  predicate Finished(src: Source, s: State) {
    s.dumped && s.rows == map[] && s.live == |src.log| && forall i :: 0 <= i < |s.queues| ==> s.queues[i] == []
  }

  /** Every sink holds exactly the source table. */
  predicate Right(src: Source, s: State) {
    forall i :: 0 <= i < |s.sinks| ==> s.sinks[i] == TableAt(src, |src.log|)
  }

  lemma SameLooks(t: map<Id, Text>, u: map<Id, Text>)
    requires forall id :: Look(t, id) == Look(u, id)
    ensures t == u
  {
    forall id ensures id in t <==> id in u { assert Look(t, id) == Look(u, id); }
    forall id | id in t ensures t[id] == u[id] { assert Look(t, id) == Look(u, id); }
  }

  lemma FinishedIsRight(src: Source, s: State)
    requires Inv(src, s) && Finished(src, s)
    ensures Right(src, s)
  {
    forall i | 0 <= i < |s.sinks| ensures s.sinks[i] == TableAt(src, |src.log|) {
      assert AllSettled(src, s.rows, s.live, s.queues[i], s.sinks[i]);
      forall id ensures Look(s.sinks[i], id) == At(src, id, |src.log|) {
        assert Settled(src, id, s.live, [], s.sinks[i]);
      }
      SameLooks(s.sinks[i], TableAt(src, |src.log|));
    }
  }

  /** Convergence: however often the dump was interrupted and whatever each attempt saw, wherever workers
      died, the process was restarted and the slot was made anew, every sink ends up with exactly the
      source table if every step met its condition. */
  lemma Converges(src: Source, states: seq<State>, steps: seq<Step>)
    requires Consistent(src) && IsRun(src, states, steps) && Initial(states[0])
    requires AllOk(src, states, steps, 0, |steps|) && Finished(src, states[|steps|])
    ensures Right(src, states[|steps|])
  {
    InvAlong(src, states, steps, |steps|);
    FinishedIsRight(src, states[|steps|]);
  }

  // ---------- a step that does not meet its condition ----------

  /** Row `id` is wrong in sink `i` and nothing under way will make it right. */
  ghost predicate Wrong(src: Source, s: State, i: nat, id: Id) {
    && Shape(src, s) && i < |s.sinks| && id !in s.rows && !Ahead(src, id, s.live)
    && Drained(src, Look(s.sinks[i], id), s.queues[i], id) != At(src, id, |src.log|)
    && (!s.dumped ==> s.live == s.slot && At(src, id, |src.log|) == None)
    && (forall w :: w in s.workers ==> Past(s.workers[w], i, id))
  }

  /** The worker will not bring the row to the sink again. */
  predicate Past(work: Work, i: nat, id: Id) {
    forall k :: 0 <= k < |work.held| && work.held[k].0 == id ==> work.given > i
  }

  lemma NotAheadLater(src: Source, id: Id, from: nat, later: nat)
    requires !Ahead(src, id, from) && from <= later
    ensures !Ahead(src, id, later)
  {}

  lemma WrongAfterRead(src: Source, s: State, i: nat, id: Id)
    requires Wrong(src, s, i, id) && Enabled(src, s, ReadLive)
    ensures Wrong(src, Next(src, s, ReadLive), i, id)
  {
    hide At, LastQueued, Past;
    var s' := Next(src, s, ReadLive);
    assert !Writes(src.log[s.live], id);
    NotAheadLater(src, id, s.live, s.live + 1);
    forall j | 0 <= j < |s.queues| ensures InLog(src, s'.queues[j]) { LastQueuedSnoc(src, s.queues[j], s.live, id); }
    LastQueuedSnoc(src, s.queues[i], s.live, id);
  }

  lemma WrongAfterApply(src: Source, s: State, i: nat, id: Id, j: nat)
    requires Wrong(src, s, i, id) && Enabled(src, s, ApplyLive(j))
    ensures Wrong(src, Next(src, s, ApplyLive(j)), i, id)
  {
    hide At, Ahead, Drained, Past;
    var s' := Next(src, s, ApplyLive(j));
    HeadApplied(src, Look(s.sinks[j], id), s.queues[j], id);
    assert Look(s'.sinks[j], id) == Act(Look(s.sinks[j], id), src.log[s.queues[j][0]], id);
  }

  lemma WrongAfterGive(src: Source, s: State, i: nat, id: Id, w: WorkerId)
    requires Wrong(src, s, i, id) && Enabled(src, s, Give(w)) && ClaimsOk(s)
    ensures Wrong(src, Next(src, s, Give(w)), i, id)
  {
    var work := s.workers[w];
    assert WorkOk(s.rows, s.calls, |s.sinks|, work) && Past(work, i, id);
    hide At, Ahead, Drained, PutAll, ClaimsOk;
    if work.given == i { PutAllLook(s.sinks[i], work.held, id); }
  }

  lemma WrongAfterClaim(src: Source, s: State, i: nat, id: Id, w: WorkerId, ids: seq<Id>)
    requires Wrong(src, s, i, id) && Enabled(src, s, Claim(w, ids))
    ensures Wrong(src, Next(src, s, Claim(w, ids)), i, id)
  {
    hide At, Ahead, Drained;
    var s' := Next(src, s, Claim(w, ids));
    forall v | v in s.workers ensures Past(s'.workers[v], i, id) { assert Past(s.workers[v], i, id); }
  }

  lemma WrongAfterRestart(src: Source, s: State, i: nat, id: Id, from: nat)
    requires Wrong(src, s, i, id) && Enabled(src, s, Restart(from)) && !Ahead(src, id, from)
    ensures Wrong(src, Next(src, s, Restart(from)), i, id)
  {
    hide At, Ahead;
    if LastQueued(src, s.queues[i], id).Some? { QueuedIsAhead(src, s.queues[i], id, from); }
  }

  lemma WrongAfterDump(src: Source, s: State, i: nat, id: Id, other: Id, at: nat)
    requires Consistent(src) && Wrong(src, s, i, id) && Enabled(src, s, DumpRow(other, at))
    ensures Wrong(src, Next(src, s, DumpRow(other, at)), i, id)
  {
    EndIsNow(src, id, s.live);
    StaysPut(src, id, s.live, at);
    hide Ahead, Drained;
    assert other != id;
  }

  lemma WrongAfterMark(src: Source, s: State, i: nat, id: Id, w: WorkerId)
    requires Wrong(src, s, i, id) && Enabled(src, s, MarkDone(w))
    ensures Wrong(src, Next(src, s, MarkDone(w)), i, id)
  {
    hide At, Ahead, Drained;
    assert Past(s.workers[w], i, id);
  }

  lemma WrongAfterOther(src: Source, s: State, i: nat, id: Id, a: Step)
    requires Wrong(src, s, i, id) && Enabled(src, s, a) && (a.FinishDump? || a.Die?)
    ensures Wrong(src, Next(src, s, a), i, id)
  {
    hide At, Ahead, Drained, Past;
  }

  /** It stays wrong, until a restart reads a change of the row again or a new slot is made. */
  lemma WrongStays(src: Source, s: State, a: Step, i: nat, id: Id)
    requires Consistent(src) && ClaimsOk(s) && Enabled(src, s, a) && Wrong(src, s, i, id)
    requires !a.NewEpoch? && (a.Restart? ==> !Ahead(src, id, a.from))
    ensures Wrong(src, Next(src, s, a), i, id)
  {
    hide Wrong, Next, ClaimsOk, Consistent, Ahead;
    match a
    case DumpRow(other, at) => WrongAfterDump(src, s, i, id, other, at);
    case ReadLive => WrongAfterRead(src, s, i, id);
    case ApplyLive(j) => WrongAfterApply(src, s, i, id, j);
    case Give(w) => WrongAfterGive(src, s, i, id, w);
    case MarkDone(w) => WrongAfterMark(src, s, i, id, w);
    case Claim(w, ids) => WrongAfterClaim(src, s, i, id, w, ids);
    case Restart(from) => WrongAfterRestart(src, s, i, id, from);
    case _ => WrongAfterOther(src, s, i, id, a);
  }

  lemma BadGiveIsWrong(src: Source, s: State, w: WorkerId) returns (i: nat, id: Id)
    requires Consistent(src) && Inv(src, s) && Enabled(src, s, Give(w)) && !StepOk(src, s, Give(w))
    ensures Wrong(src, Next(src, s, Give(w)), i, id)
  {
    var work := s.workers[w];
    assert s.dumped && WorkOk(s.rows, s.calls, |s.sinks|, work);
    i := work.given;
    var k :| 0 <= k < |work.held| && work.held[k].0 !in s.rows && !GiveOk(src, work.held[k].0, work.held[k].1, s.live, s.queues[i]);
    id := work.held[k].0;
    assert HeldBy(work, id);
    var s' := Next(src, s, Give(w));
    forall v | v in s.workers ensures Past(s'.workers[v], i, id) {
      if v != w { OtherIsPast(s, v, w, i, id); }
    }
    hide ClaimsOk, Recent, AllSettled, PutAll;
    PutAllLook(s.sinks[i], work.held, id);
    EndIsNow(src, id, s.live);
  }

  /** Whoever else still lists the row has given it to every sink. */
  lemma OtherIsPast(s: State, v: WorkerId, w: WorkerId, i: nat, id: Id)
    requires ClaimsOk(s) && v in s.workers && w in s.workers && v != w && HeldBy(s.workers[w], id) && i < |s.sinks|
    ensures Past(s.workers[v], i, id)
  {
    var work := s.workers[v];
    assert WorkOk(s.rows, s.calls, |s.sinks|, work) && !HeldBy(work, id);
  }

  lemma BadMarkIsWrong(src: Source, s: State, w: WorkerId) returns (i: nat, id: Id)
    requires Consistent(src) && Inv(src, s) && Enabled(src, s, MarkDone(w)) && !StepOk(src, s, MarkDone(w))
    ensures Wrong(src, Next(src, s, MarkDone(w)), i, id)
  {
    id := s.workers[w].held[s.workers[w].marked].0;
    i := UndoneSink(src, s, w);
    MarkedIsPast(src, s, w, i);
    WrongWhenDone(src, s, w, i);
    hide Inv, Consistent, StepOk, Enabled, Past, Drained, Ahead;
  }

  lemma UndoneSink(src: Source, s: State, w: WorkerId) returns (i: nat)
    requires Inv(src, s) && Enabled(src, s, MarkDone(w)) && !StepOk(src, s, MarkDone(w))
    ensures var id := s.workers[w].held[s.workers[w].marked].0;
      id in s.rows && i < |s.sinks| && !DoneOk(src, id, s.rows[id].text, s.live, s.queues[i], s.sinks[i])
  {
    hide ClaimsOk, Recent, SinksOk, DoneOk;
    var id := s.workers[w].held[s.workers[w].marked].0;
    i :| 0 <= i < |s.sinks| && !DoneOk(src, id, s.rows[id].text, s.live, s.queues[i], s.sinks[i]);
  }

  lemma MarkedIsPast(src: Source, s: State, w: WorkerId, i: nat)
    requires ClaimsOk(s) && Enabled(src, s, MarkDone(w)) && i < |s.sinks|
    ensures var s', id := Next(src, s, MarkDone(w)), s.workers[w].held[s.workers[w].marked].0;
      s.dumped && forall v :: v in s'.workers ==> Past(s'.workers[v], i, id)
  {
    var work := s.workers[w];
    assert s.dumped && WorkOk(s.rows, s.calls, |s.sinks|, work);
    var id := work.held[work.marked].0;
    assert HeldBy(work, id);
    var s' := Next(src, s, MarkDone(w));
    forall v | v in s'.workers ensures Past(s'.workers[v], i, id) {
      if v != w { OtherIsPast(s, v, w, i, id); }
    }
  }

  lemma WrongWhenDone(src: Source, s: State, w: WorkerId, i: nat)
    requires Consistent(src) && Shape(src, s) && Recent(src, s.rows, s.live) && Enabled(src, s, MarkDone(w))
    requires var id := s.workers[w].held[s.workers[w].marked].0;
      i < |s.sinks| && id in s.rows && !DoneOk(src, id, s.rows[id].text, s.live, s.queues[i], s.sinks[i])
    ensures var id := s.workers[w].held[s.workers[w].marked].0;
      !Ahead(src, id, s.live) && Drained(src, Look(s.sinks[i], id), s.queues[i], id) != At(src, id, |src.log|)
  {
    var id := s.workers[w].held[s.workers[w].marked].0;
    hide Consistent, Drained, Ahead, LastQueued, At, RecentText, Enabled;
    assert RecentText(src, id, s.rows[id].text, s.live);
    MarkDoneExact(src, id, s.rows[id].text, s.live, s.queues[i], s.sinks[i]);
  }

  lemma BadEpochIsWrong(src: Source, s: State, at: nat) returns (i: nat, id: Id)
    requires Consistent(src) && Inv(src, s) && Enabled(src, s, NewEpoch(at)) && !StepOk(src, s, NewEpoch(at))
    ensures Wrong(src, Next(src, s, NewEpoch(at)), i, id)
  {
    i, id := StaleRow(src, s, at);
    EndIsNow(src, id, at);
    hide At, Ahead, Inv, StepOk, Consistent;
    StaleIsWrong(src, Next(src, s, NewEpoch(at)), i, id);
  }

  lemma StaleRow(src: Source, s: State, at: nat) returns (i: nat, id: Id)
    requires Shape(src, s) && Enabled(src, s, NewEpoch(at)) && !StepOk(src, s, NewEpoch(at))
    ensures i < |s.sinks| && id in s.sinks[i] && !Ahead(src, id, at) && At(src, id, at).None?
  {
    hide At, Ahead;
    i :| 0 <= i < |s.sinks| && !NothingStale(src, s.sinks[i], at);
    id :| id in s.sinks[i] && !Ahead(src, id, at) && At(src, id, at).None?;
  }

  lemma StaleIsWrong(src: Source, s: State, i: nat, id: Id)
    requires Shape(src, s) && i < |s.sinks| && s.queues[i] == [] && s.rows == map[] && s.workers == map[]
    requires id in s.sinks[i] && !Ahead(src, id, s.live) && At(src, id, |src.log|) == None && s.live == s.slot
    ensures Wrong(src, s, i, id)
  {}

  /** A step that does not meet its condition leaves a row wrong. */
  lemma BadStepIsWrong(src: Source, s: State, a: Step) returns (i: nat, id: Id)
    requires Consistent(src) && Inv(src, s) && Enabled(src, s, a) && !StepOk(src, s, a)
    ensures Wrong(src, Next(src, s, a), i, id)
  {
    match a
    case Give(w) => i, id := BadGiveIsWrong(src, s, w);
    case MarkDone(w) => i, id := BadMarkIsWrong(src, s, w);
    case NewEpoch(at) => i, id := BadEpochIsWrong(src, s, at);
  }

  /** Neither a restart nor a new slot comes at or after step `from`. */
  predicate Unbroken(steps: seq<Step>, from: nat) {
    forall j :: from <= j < |steps| ==> !steps[j].Restart? && !steps[j].NewEpoch?
  }

  lemma {:induction false} WrongAlong(src: Source, states: seq<State>, steps: seq<Step>, from: nat, n: nat, i: nat, id: Id)
    requires Consistent(src) && IsRun(src, states, steps) && Initial(states[0]) && Unbroken(steps, from)
    requires from <= n <= |steps| && Wrong(src, states[from], i, id)
    ensures Wrong(src, states[n], i, id)
  {
    hide Consistent, Wrong, Initial, Enabled, Next;
    if from < n {
      WrongAlong(src, states, steps, from, n - 1, i, id);
      ClaimsAlong(src, states, steps, n - 1);
      hide ClaimsOk;
      assert states[n - 1 + 1] == Next(src, states[n - 1], steps[n - 1]);
      WrongStays(src, states[n - 1], steps[n - 1], i, id);
    }
  }

  lemma WrongIsNotRight(src: Source, s: State, i: nat, id: Id)
    requires Wrong(src, s, i, id) && Finished(src, s)
    ensures !Right(src, s)
  {}

  /** When the last restart or new slot, if any, is step `last` and the steps before it met their
      conditions, the end is right exactly when all the others do. */
  lemma ConvergesIff(src: Source, states: seq<State>, steps: seq<Step>, last: nat)
    requires Consistent(src) && IsRun(src, states, steps) && Initial(states[0]) && last <= |steps|
    requires AllOk(src, states, steps, 0, last) && Unbroken(steps, last + 1) && Finished(src, states[|steps|])
    ensures Right(src, states[|steps|]) <==> AllOk(src, states, steps, last, |steps|)
  {
    if AllOk(src, states, steps, last, |steps|) {
      Converges(src, states, steps);
    } else {
      var j := FirstBad(src, states, steps, last);
      InvAlong(src, states, steps, j);
      InvShape(src, states[j]);
      hide Consistent, Inv, Initial, Enabled, Next, StepOk, Shape, Finished, Right, Wrong;
      assert states[j + 1] == Next(src, states[j], steps[j]);
      var i, id := BadStepIsWrong(src, states[j], steps[j]);
      WrongAlong(src, states, steps, j + 1, |steps|, i, id);
      WrongIsNotRight(src, states[|steps|], i, id);
    }
  }

  lemma FirstBad(src: Source, states: seq<State>, steps: seq<Step>, from: nat) returns (j: nat)
    requires IsRun(src, states, steps) && from <= |steps|
    requires AllOk(src, states, steps, 0, from) && !AllOk(src, states, steps, from, |steps|)
    ensures from <= j < |steps| && AllOk(src, states, steps, 0, j)
    ensures !(Shape(src, states[j]) && StepOk(src, states[j], steps[j]))
  {
    hide Shape, StepOk, Enabled, Next;
    j := from;
    while Shape(src, states[j]) && StepOk(src, states[j], steps[j])
      invariant from <= j < |steps| && AllOk(src, states, steps, 0, j) && !AllOk(src, states, steps, j, |steps|)
      decreases |steps| - j
    {
      j := j + 1;
    }
  }
}
