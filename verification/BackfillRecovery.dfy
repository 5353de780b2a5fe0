/** Backfill never gets stuck: from wherever it is, a restart makes it possible to finish, and to finish right. */
module BackfillRecovery {

  import opened Wrappers
  import opened BackfillRun
  import opened BackfillConvergence

  /** Some run whose steps meet their conditions leads from `s` to `t`. */
  ghost predicate Leads(src: Source, s: State, t: State) {
    exists states, steps ::
      && IsRun(src, states, steps) && states[0] == s && states[|steps|] == t
      && AllOk(src, states, steps, 0, |steps|)
  }

  lemma LeadsSelf(src: Source, s: State)
    ensures Leads(src, s, s)
  {
    var states, steps: seq<Step> := [s], [];
    assert IsRun(src, states, steps) && states[|steps|] == s && AllOk(src, states, steps, 0, |steps|);
  }

  lemma LeadsStep(src: Source, s: State, t: State, a: Step)
    requires Consistent(src) && Leads(src, s, t) && Inv(src, t) && Enabled(src, t, a)
    requires Shape(src, t) && StepOk(src, t, a)
    ensures Leads(src, s, Next(src, t, a)) && Inv(src, Next(src, t, a))
  {
    hide *;
    StepExact(src, t, a);
    LeadsMore(src, s, t, a);
  }

  lemma LeadsMore(src: Source, s: State, t: State, a: Step)
    requires Leads(src, s, t) && Enabled(src, t, a) && Shape(src, t) && StepOk(src, t, a)
    ensures Leads(src, s, Next(src, t, a))
  {
    hide Enabled, Next, StepOk, Shape;
    var states, steps :|
      && IsRun(src, states, steps) && states[0] == s && states[|steps|] == t
      && AllOk(src, states, steps, 0, |steps|);
    RunMore(src, states, steps, a);
    var states', steps' := states + [Next(src, t, a)], steps + [a];
    assert states'[0] == s && states'[|steps'|] == Next(src, t, a);
    hide IsRun, AllOk;
  }

  lemma RunMore(src: Source, states: seq<State>, steps: seq<Step>, a: Step)
    requires IsRun(src, states, steps) && AllOk(src, states, steps, 0, |steps|) && Enabled(src, states[|steps|], a)
    requires Shape(src, states[|steps|]) && StepOk(src, states[|steps|], a)
    ensures var states', steps' := states + [Next(src, states[|steps|], a)], steps + [a];
      IsRun(src, states', steps') && AllOk(src, states', steps', 0, |steps'|)
  {
    hide Enabled, Next, StepOk, Shape;
  }

  // ---------- after a restart ----------

  /** Nothing read lies before the slot. */
  predicate SlotOk(s: State) {
    s.slot <= s.live && forall i, k :: 0 <= i < |s.queues| && 0 <= k < |s.queues[i]| ==> s.slot <= s.queues[i][k]
  }

  lemma SlotKept(src: Source, s: State, a: Step)
    requires SlotOk(s) && Enabled(src, s, a)
    ensures SlotOk(Next(src, s, a))
  {
    hide TableAt, AbsorbRows, ApplySink, ClaimRows, PutAll, Unclaimed;
  }

  lemma {:induction false} SlotAlong(src: Source, states: seq<State>, steps: seq<Step>, n: nat)
    requires IsRun(src, states, steps) && Initial(states[0]) && n <= |steps|
    ensures SlotOk(states[n])
  {
    if n > 0 {
      SlotAlong(src, states, steps, n - 1);
      hide SlotOk, Enabled, Next;
      assert states[n - 1 + 1] == Next(src, states[n - 1], steps[n - 1]);
      SlotKept(src, states[n - 1], steps[n - 1]);
    }
  }

  /** No worker, no claim, and nothing on its way to a sink. */
  predicate Idle(s: State) {
    && s.workers == map[]
    && (forall id :: id in s.rows ==> !s.rows[id].claimed)
    && (forall i :: 0 <= i < |s.queues| ==> s.queues[i] == [])
  }

  /** A restart forgets the workers and what was queued, gives every claim back, and keeps the staged rows, their texts
      and the sinks. */
  lemma RestartForgets(src: Source, s: State, from: nat)
    requires Enabled(src, s, Restart(from))
    ensures var t := Next(src, s, Restart(from));
      && Idle(t) && t.live == from && t.sinks == s.sinks && t.dumped == s.dumped && t.slot == s.slot
      && t.rows.Keys == s.rows.Keys && forall id :: id in s.rows ==> t.rows[id].text == s.rows[id].text
  {}

  // ---------- finishing ----------

  /** `missing` is what is still to be dumped of the source table as it is at the end. */
  ghost predicate Missing(src: Source, t: State, missing: set<Id>) {
    forall id :: id in TableAt(src, |src.log|) && id !in t.rows <==> id in missing
  }

  lemma {:induction false} DumpRest(src: Source, s: State, t: State, missing: set<Id>) returns (u: State)
    requires Consistent(src) && Leads(src, s, t) && Inv(src, t) && Idle(t) && !t.dumped && Missing(src, t, missing)
    ensures Leads(src, s, u) && Inv(src, u) && Idle(u) && u.dumped
    decreases |missing|
  {
    hide *;
    var end := |src.log|;
    InvShape(src, t);
    if missing == {} {
      FinishMoves(src, t);
      StepIsFree(src, t, FinishDump(end));
      LeadsStep(src, s, t, FinishDump(end));
      u := Next(src, t, FinishDump(end));
    } else {
      var id :| id in missing;
      DumpMoves(src, t, id, missing);
      StepIsFree(src, t, DumpRow(id, end));
      LeadsStep(src, s, t, DumpRow(id, end));
      u := DumpRest(src, s, Next(src, t, DumpRow(id, end)), missing - {id});
    }
  }

  lemma MissingIs(src: Source, t: State, missing: set<Id>)
    requires missing == set id | id in TableAt(src, |src.log|) && id !in t.rows
    ensures Missing(src, t, missing)
  {
    hide TableAt;
  }

  lemma FinishMoves(src: Source, t: State)
    requires Shape(src, t) && Idle(t) && !t.dumped && Missing(src, t, {})
    ensures Enabled(src, t, FinishDump(|src.log|))
    ensures var u := Next(src, t, FinishDump(|src.log|)); Idle(u) && u.dumped
  {
    hide TableAt;
  }

  lemma DumpMoves(src: Source, t: State, id: Id, missing: set<Id>)
    requires Shape(src, t) && Idle(t) && !t.dumped && Missing(src, t, missing) && id in missing
    ensures Enabled(src, t, DumpRow(id, |src.log|))
    ensures var u := Next(src, t, DumpRow(id, |src.log|)); Idle(u) && !u.dumped && Missing(src, u, missing - {id})
  {
    hide TableAt;
  }

  lemma StepIsFree(src: Source, t: State, a: Step)
    requires Shape(src, t) && Enabled(src, t, a) && !a.Give? && !a.MarkDone? && !a.NewEpoch?
    ensures StepOk(src, t, a)
  {}

  /** A worker with one row has called the first `g` sinks with it. */
  ghost predicate Giving(t: State, id: Id, text: Text, g: nat) {
    && t.workers == map[0 := Work([(id, text)], g, 0)] && g <= |t.sinks| && id in t.rows && t.rows[id].text == text
    && (forall i :: 0 <= i < |t.queues| ==> t.queues[i] == [])
    && (forall k :: k in t.rows && k != id ==> !t.rows[k].claimed)
    && (forall i :: 0 <= i < g ==> Look(t.sinks[i], id) == Some(text))
  }

  lemma ClaimMoves(src: Source, t: State, id: Id)
    requires Idle(t) && t.dumped && id in t.rows
    ensures Enabled(src, t, Claim(0, [id]))
    ensures var u := Next(src, t, Claim(0, [id]));
      Giving(u, id, t.rows[id].text, 0) && u.dumped && u.rows.Keys == t.rows.Keys
  {
    assert Next(src, t, Claim(0, [id])).workers[0].held == [(id, t.rows[id].text)];
  }

  lemma ClaimOne(src: Source, s: State, t: State, id: Id)
    requires Consistent(src) && Leads(src, s, t) && Inv(src, t) && Idle(t) && t.dumped && id in t.rows
    ensures Enabled(src, t, Claim(0, [id]))
    ensures var u := Next(src, t, Claim(0, [id]));
      Leads(src, s, u) && Inv(src, u) && Giving(u, id, t.rows[id].text, 0) && u.dumped && u.rows.Keys == t.rows.Keys
  {
    hide *;
    ClaimMoves(src, t, id);
    InvShape(src, t);
    StepIsFree(src, t, Claim(0, [id]));
    LeadsStep(src, s, t, Claim(0, [id]));
  }

  lemma GiveMoves(src: Source, t: State, id: Id, text: Text, g: nat)
    requires Shape(src, t) && Giving(t, id, text, g) && g < |t.sinks|
    ensures Enabled(src, t, Give(0)) && StepOk(src, t, Give(0))
    ensures var u := Next(src, t, Give(0));
      Giving(u, id, text, g + 1) && u.dumped == t.dumped && u.rows == t.rows && |u.sinks| == |t.sinks|
  {
    assert PutAll(t.sinks[g], [(id, text)][..0]) == t.sinks[g];
    hide GiveOk;
  }

  lemma GiveOne(src: Source, s: State, t: State, id: Id, text: Text, g: nat)
    requires Consistent(src) && Leads(src, s, t) && Inv(src, t) && Giving(t, id, text, g) && g < |t.sinks|
    ensures Enabled(src, t, Give(0))
    ensures var u := Next(src, t, Give(0));
      && Leads(src, s, u) && Inv(src, u) && Giving(u, id, text, g + 1)
      && u.dumped == t.dumped && u.rows == t.rows && |u.sinks| == |t.sinks|
  {
    hide *;
    InvShape(src, t);
    GiveMoves(src, t, id, text, g);
    LeadsStep(src, s, t, Give(0));
  }

  lemma {:induction false} GiveRest(src: Source, s: State, t: State, id: Id, text: Text, g: nat) returns (u: State)
    requires Consistent(src) && Leads(src, s, t) && Inv(src, t) && Giving(t, id, text, g)
    ensures Leads(src, s, u) && Inv(src, u) && Giving(u, id, text, |u.sinks|) && u.dumped == t.dumped && u.rows == t.rows
    decreases |t.sinks| - g
  {
    hide Leads, Inv, Consistent;
    u := t;
    if g < |t.sinks| {
      GiveOne(src, s, t, id, text, g);
      u := GiveRest(src, s, Next(src, t, Give(0)), id, text, g + 1);
    }
  }

  lemma MarkMoves(src: Source, t: State, id: Id, text: Text)
    requires Shape(src, t) && Giving(t, id, text, |t.sinks|) && t.dumped
    ensures Enabled(src, t, MarkDone(0)) && StepOk(src, t, MarkDone(0))
    ensures var u := Next(src, t, MarkDone(0)); Idle(u) && u.dumped && u.rows.Keys == t.rows.Keys - {id}
  {
    hide Ahead;
  }

  lemma MarkOne(src: Source, s: State, t: State, id: Id, text: Text)
    requires Consistent(src) && Leads(src, s, t) && Inv(src, t) && Giving(t, id, text, |t.sinks|) && t.dumped
    ensures Enabled(src, t, MarkDone(0))
    ensures var u := Next(src, t, MarkDone(0));
      Leads(src, s, u) && Inv(src, u) && Idle(u) && u.dumped && u.rows.Keys == t.rows.Keys - {id}
  {
    hide *;
    InvShape(src, t);
    MarkMoves(src, t, id, text);
    LeadsStep(src, s, t, MarkDone(0));
  }

  lemma {:induction false} DrainRows(src: Source, s: State, t: State) returns (u: State)
    requires Consistent(src) && Leads(src, s, t) && Inv(src, t) && Idle(t) && t.dumped
    ensures Leads(src, s, u) && Inv(src, u) && Idle(u) && u.dumped && u.rows == map[]
    decreases |t.rows.Keys|
  {
    hide Leads, Inv, Consistent, Enabled, Next, Giving, Idle;
    u := t;
    if t.rows.Keys != {} {
      var id :| id in t.rows.Keys;
      ClaimOne(src, s, t, id);
      var v := GiveRest(src, s, Next(src, t, Claim(0, [id])), id, t.rows[id].text, 0);
      MarkOne(src, s, v, id, t.rows[id].text);
      u := DrainRows(src, s, Next(src, v, MarkDone(0)));
    }
  }

  lemma {:induction false} ReadRest(src: Source, s: State, t: State) returns (u: State)
    requires Consistent(src) && Leads(src, s, t) && Inv(src, t) && t.dumped && t.rows == map[]
    ensures Leads(src, s, u) && Inv(src, u) && u.dumped && u.rows == map[] && u.live == |src.log|
    decreases |src.log| - t.live
  {
    InvShape(src, t);
    hide Leads, Inv, Consistent, StepOk;
    u := t;
    if t.live < |src.log| {
      StepIsFree(src, t, ReadLive);
      LeadsStep(src, s, t, ReadLive);
      u := ReadRest(src, s, Next(src, t, ReadLive));
    }
  }

  function Waiting(queues: seq<seq<nat>>): nat {
    if queues == [] then 0 else Waiting(queues[..|queues| - 1]) + |queues[|queues| - 1]|
  }

  lemma {:induction false} WaitingLess(queues: seq<seq<nat>>, i: nat)
    requires i < |queues| && queues[i] != []
    ensures Waiting(queues[i := queues[i][1..]]) < Waiting(queues)
  {
    var n := |queues| - 1;
    if i < n {
      WaitingLess(queues[..n], i);
      assert queues[i := queues[i][1..]][..n] == queues[..n][i := queues[i][1..]];
    } else {
      assert queues[i := queues[i][1..]][..n] == queues[..n];
    }
  }

  lemma {:induction false} ApplyRest(src: Source, s: State, t: State) returns (u: State)
    requires Consistent(src) && Leads(src, s, t) && Inv(src, t) && t.dumped && t.rows == map[] && t.live == |src.log|
    ensures Leads(src, s, u) && Inv(src, u) && Finished(src, u)
    decreases Waiting(t.queues)
  {
    InvShape(src, t);
    hide Leads, Inv, Consistent, StepOk, ApplySink;
    u := t;
    if i: nat :| i < |t.queues| && t.queues[i] != [] {
      assert InLog(src, t.queues[i]);
      StepIsFree(src, t, ApplyLive(i));
      LeadsStep(src, s, t, ApplyLive(i));
      WaitingLess(t.queues, i);
      hide Waiting;
      u := ApplyRest(src, s, Next(src, t, ApplyLive(i)));
    }
  }

  /** From every state of every run whose steps met their conditions, dump, drain and stream unfinished as they may be
      and workers dead or alive, the process can be restarted and finish with every sink equal to the source table. */
  lemma CanFinish(src: Source, states: seq<State>, steps: seq<Step>, n: nat) returns (t: State)
    requires Consistent(src) && IsRun(src, states, steps) && Initial(states[0]) && n <= |steps|
    requires AllOk(src, states, steps, 0, n)
    ensures Leads(src, states[n], t) && Finished(src, t) && Right(src, t)
  {
    var s := states[n];
    InvAlong(src, states, steps, n);
    SlotAlong(src, states, steps, n);
    InvShape(src, s);
    LeadsSelf(src, s);
    StepIsFree(src, s, Restart(s.slot));
    LeadsStep(src, s, s, Restart(s.slot));
    RestartForgets(src, s, s.slot);
    t := Next(src, s, Restart(s.slot));
    hide Leads, Inv, Consistent, Idle, Enabled, Next, Shape, StepOk, Finished, Right;
    if !t.dumped {
      var missing := set id | id in TableAt(src, |src.log|) && id !in t.rows;
      MissingIs(src, t, missing);
      t := DumpRest(src, s, t, missing);
    }
    t := DrainRows(src, s, t);
    t := ReadRest(src, s, t);
    t := ApplyRest(src, s, t);
    FinishedIsRight(src, t);
  }
}
