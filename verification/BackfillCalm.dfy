/** A rule of thumb that makes backfill converge: no live change meets a row between its claim and its
    mark-done, no row is claimed while a change of it is on its way to a sink, and a new slot is made only
    when no sink holds a row that is gone for good. */
module BackfillCalm {

  import opened Wrappers
  import opened BackfillRun
  import opened BackfillConvergence

  ghost predicate Calm(src: Source, s: State, a: Step)
    requires Shape(src, s) && Enabled(src, s, a)
  {
    match a
    case ReadLive => forall w :: w in s.workers ==> !HeldBy(s.workers[w], src.log[s.live].id)
    case Claim(_, ids) =>
      forall i, k :: 0 <= i < |s.queues| && 0 <= k < |ids| ==> LastQueued(src, s.queues[i], ids[k]) == None
    case NewEpoch(at) => forall i :: 0 <= i < |s.sinks| ==> NothingStale(src, s.sinks[i], at)
    case _ => true
  }

  /** What a worker still holds is staged unchanged, no change of it is under way to any sink, and the
      sinks it has called have it. */
  ghost predicate HoldOk(src: Source, s: State, work: Work)
    requires Shape(src, s)
  {
    forall k :: work.marked <= k < |work.held| ==>
      var (id, text) := work.held[k];
      && id in s.rows && s.rows[id].text == text
      && (forall i :: 0 <= i < |s.queues| ==> LastQueued(src, s.queues[i], id) == None)
      && (forall i :: 0 <= i < |s.sinks| && i < work.given ==> Look(s.sinks[i], id) == Some(text))
  }

  ghost predicate AllHold(src: Source, s: State) {
    Inv(src, s) && forall w :: w in s.workers ==> HoldOk(src, s, s.workers[w])
  }

  /** Then both steps of a worker meet their condition. */
  lemma HoldIsOk(src: Source, s: State, a: Step)
    requires AllHold(src, s) && Enabled(src, s, a) && Calm(src, s, a)
    ensures StepOk(src, s, a)
  {
    if a.Give? {
      assert WorkOk(s.rows, s.calls, |s.sinks|, s.workers[a.worker]);
    }
  }

  lemma ReadKeepsHold(src: Source, s: State, work: Work)
    requires Shape(src, s) && Enabled(src, s, ReadLive) && HoldOk(src, s, work) && !HeldBy(work, src.log[s.live].id)
    ensures var s' := Next(src, s, ReadLive); Shape(src, s') && HoldOk(src, s', work)
  {
    var s' := Next(src, s, ReadLive);
    forall i | 0 <= i < |s.queues| ensures InLog(src, s'.queues[i]) { LastQueuedSnoc(src, s.queues[i], s.live, ""); }
    hide LastQueued;
    forall k, i | work.marked <= k < |work.held| && 0 <= i < |s.queues|
      ensures work.held[k].0 != src.log[s.live].id && LastQueued(src, s'.queues[i], work.held[k].0) == None
    {
      LastQueuedSnoc(src, s.queues[i], s.live, work.held[k].0);
    }
  }

  lemma ApplyKeepsHold(src: Source, s: State, work: Work, j: nat)
    requires Shape(src, s) && Enabled(src, s, ApplyLive(j)) && HoldOk(src, s, work)
    ensures var s' := Next(src, s, ApplyLive(j)); Shape(src, s') && HoldOk(src, s', work)
  {
    var s' := Next(src, s, ApplyLive(j));
    forall k | work.marked <= k < |work.held|
      ensures var id := work.held[k].0;
        LastQueued(src, s'.queues[j], id) == None && Look(s'.sinks[j], id) == Look(s.sinks[j], id)
    {}
  }

  lemma ClaimKeepsHold(src: Source, s: State, w: WorkerId, ids: seq<Id>)
    requires Shape(src, s) && Enabled(src, s, Claim(w, ids)) && Calm(src, s, Claim(w, ids))
    requires forall v :: v in s.workers ==> HoldOk(src, s, s.workers[v])
    ensures var s' := Next(src, s, Claim(w, ids));
      Shape(src, s') && forall v :: v in s'.workers ==> HoldOk(src, s', s'.workers[v])
  {
    hide LastQueued;
    var s' := Next(src, s, Claim(w, ids));
    forall v | v in s.workers ensures HoldOk(src, s', s.workers[v]) {}
  }

  lemma GiveKeepsHold(src: Source, s: State, w: WorkerId, v: WorkerId)
    requires Shape(src, s) && ClaimsOk(s) && Enabled(src, s, Give(w)) && v in s.workers && HoldOk(src, s, s.workers[v])
    ensures var s' := Next(src, s, Give(w)); Shape(src, s') && HoldOk(src, s', s'.workers[v])
  {
    hide PutAll, LastQueued;
    var s', work := Next(src, s, Give(w)), s.workers[w];
    assert WorkOk(s.rows, s.calls, |s.sinks|, work);
    forall k | s.workers[v].marked <= k < |s.workers[v].held|
      ensures var (id, text) := s.workers[v].held[k];
        Look(s'.sinks[work.given], id) == if v == w then Some(text) else Look(s.sinks[work.given], id)
    {
      var id := s.workers[v].held[k].0;
      PutAllLook(s.sinks[work.given], work.held, id);
      assert HeldBy(s.workers[v], id);
      if v != w { assert !HeldBy(work, id); }
    }
  }

  lemma MarkKeepsHold(src: Source, s: State, w: WorkerId, v: WorkerId)
    requires Shape(src, s) && ClaimsOk(s) && Enabled(src, s, MarkDone(w)) && v in s.workers && HoldOk(src, s, s.workers[v])
    ensures var s' := Next(src, s, MarkDone(w)); Shape(src, s') && (v in s'.workers ==> HoldOk(src, s', s'.workers[v]))
  {
    hide LastQueued;
    var work := s.workers[w];
    var gone := work.held[work.marked].0;
    assert WorkOk(s.rows, s.calls, |s.sinks|, work);
    assert HeldBy(work, gone);
    if v != w { assert !HeldBy(s.workers[v], gone); }
  }

  lemma CalmKeeps(src: Source, s: State, a: Step)
    requires Consistent(src) && AllHold(src, s) && Enabled(src, s, a) && Calm(src, s, a)
    ensures StepOk(src, s, a) && AllHold(src, Next(src, s, a))
  {
    HoldIsOk(src, s, a);
    StepExact(src, s, a);
    InvShape(src, s);
    InvShape(src, Next(src, s, a));
    var s' := Next(src, s, a);
    forall w | w in s'.workers ensures HoldOk(src, s', s'.workers[w]) {
      HoldsOn(src, s, a, w);
    }
  }

  lemma HoldsOn(src: Source, s: State, a: Step, w: WorkerId)
    requires AllHold(src, s) && Enabled(src, s, a) && Calm(src, s, a) && Shape(src, Next(src, s, a))
    requires w in Next(src, s, a).workers
    ensures HoldOk(src, Next(src, s, a), Next(src, s, a).workers[w])
  {
    hide HoldOk, SinksOk, Recent, HeldBy, LastQueued;
    match a
    case ReadLive => ReadKeepsHold(src, s, s.workers[w]);
    case ApplyLive(j) => ApplyKeepsHold(src, s, s.workers[w], j);
    case Claim(v, ids) => ClaimKeepsHold(src, s, v, ids);
    case Give(v) => GiveKeepsHold(src, s, v, w);
    case MarkDone(v) => MarkKeepsHold(src, s, v, w);
    case Die(v) => DieKeepsHold(src, s, v, w);
    case _ =>
  }

  lemma DieKeepsHold(src: Source, s: State, v: WorkerId, w: WorkerId)
    requires Shape(src, s) && Enabled(src, s, Die(v)) && w in s.workers && HoldOk(src, s, s.workers[w])
    ensures var s' := Next(src, s, Die(v)); Shape(src, s') && HoldOk(src, s', s.workers[w])
  {}

  lemma {:induction false} CalmAlong(src: Source, states: seq<State>, steps: seq<Step>, n: nat)
    requires Consistent(src) && IsRun(src, states, steps) && Initial(states[0]) && n <= |steps|
    requires forall i :: 0 <= i < |steps| && Shape(src, states[i]) ==> Calm(src, states[i], steps[i])
    ensures AllHold(src, states[n]) && AllOk(src, states, steps, 0, n)
  {
    if n == 0 {
      InitialInv(src, states[0]);
    } else {
      CalmAlong(src, states, steps, n - 1);
      hide Consistent, AllHold, Initial, Enabled, Next, StepOk, Shape, Calm;
      assert states[n - 1 + 1] == Next(src, states[n - 1], steps[n - 1]);
      HoldShape(src, states[n - 1]);
      CalmKeeps(src, states[n - 1], steps[n - 1]);
    }
  }

  lemma HoldShape(src: Source, s: State)
    requires AllHold(src, s)
    ensures Shape(src, s)
  {}

  /** Every run that keeps the rule converges. */
  lemma CalmConverges(src: Source, states: seq<State>, steps: seq<Step>)
    requires Consistent(src) && IsRun(src, states, steps) && Initial(states[0]) && Finished(src, states[|steps|])
    requires forall i :: 0 <= i < |steps| && Shape(src, states[i]) ==> Calm(src, states[i], steps[i])
    ensures Right(src, states[|steps|])
  {
    CalmAlong(src, states, steps, |steps|);
    Converges(src, states, steps);
  }
}
