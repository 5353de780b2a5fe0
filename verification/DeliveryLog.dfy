/** What the log of a dispatcher's life looks like, said of the log alone: it is a sequence of rounds, one
    for each batch, and the batches are the jobs in order. */
module DeliveryLog {

  import opened Delivery

  /** One round: the batch and the records made of it. */
  datatype Tale = Tale(batch: seq<Job>, recs: seq<Record>)

  function LogOf(tales: seq<Tale>): seq<Record> {
    if tales == [] then [] else LogOf(tales[..|tales| - 1]) + tales[|tales| - 1].recs
  }

  function JobsOf(tales: seq<Tale>): seq<Job> {
    if tales == [] then [] else JobsOf(tales[..|tales| - 1]) + tales[|tales| - 1].batch
  }

  /** The sink has the batch, or was skipped because it is best-effort and failed. */
  ghost predicate Given(cfg: Config, round: nat, batch: seq<Job>, i: nat, rec: Record)
    requires i < |cfg.required|
  {
    if cfg.fails(round, i) then !cfg.required[i] && rec == Skipped(i, batch) else rec == Accepted(i, batch)
  }

  /** The first |recs| sinks, in order, have the batch; the best-effort ones that fail are skipped. */
  ghost predicate GivenTo(cfg: Config, round: nat, batch: seq<Job>, recs: seq<Record>) {
    && |recs| <= |cfg.required|
    && forall i :: 0 <= i < |recs| ==> Given(cfg, round, batch, i, recs[i])
  }

  /** With a callback, one confirmation of the largest LSN of every source of the batch. */
  ghost predicate Confirms(cfg: Config, batch: seq<Job>, end: seq<Record>) {
    if cfg.onConfirmed then |end| == 1 && end[0].Confirmed? && IsMax(end[0].max, batch) else end == []
  }

  /** Every sink was called, no required one failed, and the whole batch was confirmed. */
  ghost predicate Succeeded(cfg: Config, round: nat, t: Tale) {
    var n := |cfg.required|;
    |t.recs| >= n && GivenTo(cfg, round, t.batch, t.recs[..n]) && Confirms(cfg, t.batch, t.recs[n..])
  }

  /** A required sink failed for good; the later sinks were not called and nothing was confirmed. */
  ghost predicate Failed(cfg: Config, round: nat, t: Tale) {
    var k := |t.recs| - (if cfg.onFatal then 2 else 1);
    && 0 <= k < |cfg.required| && GivenTo(cfg, round, t.batch, t.recs[..k])
    && cfg.required[k] && cfg.fails(round, k) && t.recs[k] == GaveUp(k, t.batch)
    && (cfg.onFatal ==> t.recs[k + 1] == Fatal)
  }

  ghost predicate TaleOk(cfg: Config, round: nat, t: Tale) {
    1 <= |t.batch| <= Cap(cfg) && (Succeeded(cfg, round, t) || Failed(cfg, round, t))
  }

  /** The tales are the log; each round but the last succeeded, unless there is no one to tell. */
  ghost predicate Told(cfg: Config, d: Progress, tales: seq<Tale>) {
    && d.taken <= |cfg.jobs| && d.round == |tales|
    && LogOf(tales) == d.log && JobsOf(tales) == cfg.jobs[..d.taken]
    && (forall r :: 0 <= r < |tales| ==> TaleOk(cfg, r, tales[r]))
    && (cfg.onFatal ==> forall r :: 0 <= r < |tales| - 1 ==> Succeeded(cfg, r, tales[r]))
    && (d.fatal ==> cfg.onFatal)
    && (cfg.onFatal && !d.fatal ==> forall r :: 0 <= r < |tales| ==> Succeeded(cfg, r, tales[r]))
    && (d.stopped ==> tales != [] && Failed(cfg, |tales| - 1, tales[|tales| - 1]))
  }

  lemma {:induction false} SinkRoundTells(cfg: Config, batch: seq<Job>, round: nat, i: nat)
    requires i <= |cfg.required|
    ensures var (recs, ok) := SinkRound(cfg, batch, round, i);
      && |recs| <= |cfg.required| - i && (ok ==> |recs| == |cfg.required| - i) && (!ok ==> |recs| > 0)
      && (forall k :: 0 <= k < |recs| - (if ok then 0 else 1) ==> Given(cfg, round, batch, i + k, recs[k]))
      && (!ok ==> var k := |recs| - 1; cfg.required[i + k] && cfg.fails(round, i + k) && recs[k] == GaveUp(i + k, batch))
    decreases |cfg.required| - i
  {
    if i < |cfg.required| && !(cfg.fails(round, i) && cfg.required[i]) {
      SinkRoundTells(cfg, batch, round, i + 1);
      var (recs, ok) := SinkRound(cfg, batch, round, i);
      var rest := SinkRound(cfg, batch, round, i + 1).0;
      forall k | 0 < k < |recs| ensures recs[k] == rest[k - 1] {}
    }
  }

  function EndOf(cfg: Config, batch: seq<Job>, ok: bool): seq<Record> {
    if ok then (if cfg.onConfirmed then [Confirmed(MaxLsn(batch))] else [])
    else if cfg.onFatal then [Fatal] else []
  }

  lemma RoundSucceeds(cfg: Config, batch: seq<Job>, round: nat)
    requires SinkRound(cfg, batch, round, 0).1
    ensures Succeeded(cfg, round, Tale(batch, SinkRound(cfg, batch, round, 0).0 + EndOf(cfg, batch, true)))
  {
    SinkRoundTells(cfg, batch, round, 0);
    MaxLsnIs(batch);
    hide SinkRound, MaxLsn, IsMax;
    var recs, end := SinkRound(cfg, batch, round, 0).0, EndOf(cfg, batch, true);
    assert (recs + end)[..|cfg.required|] == recs && (recs + end)[|cfg.required|..] == end;
  }

  lemma RoundFails(cfg: Config, batch: seq<Job>, round: nat)
    requires !SinkRound(cfg, batch, round, 0).1
    ensures Failed(cfg, round, Tale(batch, SinkRound(cfg, batch, round, 0).0 + EndOf(cfg, batch, false)))
  {
    SinkRoundTells(cfg, batch, round, 0);
    hide SinkRound, MaxLsn;
    var recs, end := SinkRound(cfg, batch, round, 0).0, EndOf(cfg, batch, false);
    assert (recs + end)[..|recs| - 1] == recs[..|recs| - 1];
  }

  /** One round adds one tale. */
  lemma RoundTells(cfg: Config, d: Progress, n: nat) returns (t: Tale)
    requires d.taken + n <= |cfg.jobs| && !d.fatal && !d.stopped
    ensures var r := Round(cfg, d, n);
      && t.batch == cfg.jobs[d.taken..d.taken + n] && r.log == d.log + t.recs
      && r.taken == d.taken + n && r.round == d.round + 1
      && r.fatal == (r.stopped && cfg.onFatal)
      && (if r.stopped then Failed(cfg, d.round, t) else Succeeded(cfg, d.round, t))
  {
    var batch := cfg.jobs[d.taken..d.taken + n];
    var (recs, ok) := SinkRound(cfg, batch, d.round, 0);
    if ok { RoundSucceeds(cfg, batch, d.round); } else { RoundFails(cfg, batch, d.round); }
    hide SinkRound, MaxLsn, Succeeded, Failed;
    t := Tale(batch, recs + EndOf(cfg, batch, ok));
    assert d.log + recs + EndOf(cfg, batch, ok) == d.log + t.recs;
  }

  lemma TalesSnoc(tales: seq<Tale>, t: Tale)
    ensures LogOf(tales + [t]) == LogOf(tales) + t.recs && JobsOf(tales + [t]) == JobsOf(tales) + t.batch
  {
    assert (tales + [t])[..|tales|] == tales;
  }

  lemma ToldMore(cfg: Config, d: Progress, tales: seq<Tale>, n: nat) returns (more: seq<Tale>)
    requires Told(cfg, d, tales) && d.taken + n <= |cfg.jobs| && 1 <= n <= Cap(cfg) && !d.fatal && !d.stopped
    ensures Told(cfg, Round(cfg, d, n), more)
  {
    var t := RoundTells(cfg, d, n);
    more := tales + [t];
    TalesSnoc(tales, t);
    BatchesJoin(cfg.jobs, d.taken, n);
    hide Round, Succeeded, Failed, LogOf, JobsOf, Cap;
    AllTalesOk(cfg, tales, t);
  }

  lemma BatchesJoin(jobs: seq<Job>, from: nat, n: nat)
    requires from + n <= |jobs|
    ensures jobs[..from + n] == jobs[..from] + jobs[from..from + n] && |jobs[from..from + n]| == n
  {}

  lemma AllTalesOk(cfg: Config, tales: seq<Tale>, t: Tale)
    requires forall r :: 0 <= r < |tales| ==> TaleOk(cfg, r, tales[r])
    requires TaleOk(cfg, |tales|, t)
    ensures forall r :: 0 <= r <= |tales| ==> TaleOk(cfg, r, (tales + [t])[r])
  {
    hide TaleOk;
  }

  lemma {:induction false} ProcessTells(cfg: Config, d: Progress, cuts: seq<nat>, tales: seq<Tale>) returns (more: seq<Tale>)
    requires CutsFit(cfg, d.taken, cuts) && Told(cfg, d, tales) && (d.fatal ==> d.stopped)
    ensures Told(cfg, Process(cfg, d, cuts), more)
    decreases |cuts|
  {
    hide Told;
    more := tales;
    if cuts != [] && !d.stopped {
      more := ToldMore(cfg, d, tales, cuts[0]);
      FatalStops(cfg, d, cuts[0]);
      more := ProcessTells(cfg, Round(cfg, d, cuts[0]), cuts[1..], more);
    }
  }

  lemma FatalStops(cfg: Config, d: Progress, n: nat)
    requires d.taken + n <= |cfg.jobs| && !d.fatal
    ensures var r := Round(cfg, d, n); r.fatal ==> r.stopped
  {
    hide SinkRound, MaxLsn;
  }

  lemma {:induction false} DrainTells(cfg: Config, d: Progress, tales: seq<Tale>) returns (more: seq<Tale>)
    requires Told(cfg, d, tales) && !d.fatal && d.taken <= |cfg.jobs|
    ensures var r := Drain(cfg, d); Told(cfg, r, more) && (r.taken < |cfg.jobs| ==> r.stopped)
    decreases |cfg.jobs| - d.taken
  {
    hide SinkRound, MaxLsn, TaleOk, Succeeded, Failed;
    more := tales;
    if d.taken < |cfg.jobs| {
      var e, n := d.(stopped := false), DrainCut(cfg, d);
      more := ToldMore(cfg, e, tales, n);
      FatalStops(cfg, e, n);
      if !Round(cfg, e, n).stopped { more := DrainTells(cfg, Round(cfg, e, n), more); }
    }
  }

  /** Rounds from `round` on: all but the last are full and succeed; the last tells whether the draining stopped. */
  ghost predicate FullRounds(cfg: Config, round: nat, tales: seq<Tale>, stopped: bool) {
    && (forall k :: 0 <= k < |tales| - 1 ==> |tales[k].batch| == Cap(cfg) && Succeeded(cfg, round + k, tales[k]))
    && (tales != [] ==>
          var n := |tales| - 1;
          if stopped then Failed(cfg, round + n, tales[n]) else Succeeded(cfg, round + n, tales[n]))
  }

  lemma FullCons(cfg: Config, round: nat, t: Tale, rest: seq<Tale>, stopped: bool)
    requires Succeeded(cfg, round, t) && FullRounds(cfg, round + 1, rest, stopped)
    requires rest == [] ==> !stopped
    requires rest != [] ==> |t.batch| == Cap(cfg)
    ensures FullRounds(cfg, round, [t] + rest, stopped)
  {
    hide Succeeded, Failed;
    var tales := [t] + rest;
    forall k | 0 <= k < |tales| - 1 ensures |tales[k].batch| == Cap(cfg) && Succeeded(cfg, round + k, tales[k]) {
      if k > 0 { assert tales[k] == rest[k - 1] && round + 1 + (k - 1) == round + k; }
    }
  }

  /** Draining takes the rest of the jobs in full batches and one last one that may be smaller, until a required sink
      fails. */
  lemma {:induction false} DrainsInFull(cfg: Config, d: Progress) returns (tales: seq<Tale>)
    requires d.taken <= |cfg.jobs| && !d.fatal
    ensures var r := Drain(cfg, d);
      && d.taken <= r.taken <= |cfg.jobs| && JobsOf(tales) == cfg.jobs[d.taken..r.taken] && r.log == d.log + LogOf(tales)
      && (tales == [] <==> d.taken == |cfg.jobs|)
      && (tales != [] ==> FullRounds(cfg, d.round, tales, r.stopped) && (r.taken == |cfg.jobs| || r.stopped))
    decreases |cfg.jobs| - d.taken
  {
    tales := [];
    if d.taken == |cfg.jobs| {
      assert cfg.jobs[d.taken..d.taken] == [] && d.log + [] == d.log;
    } else {
      var e, n := d.(stopped := false), DrainCut(cfg, d);
      var t := RoundTells(cfg, e, n);
      var r := Round(cfg, e, n);
      hide Round, Succeeded, Failed, FullRounds;
      var rest := [];
      if !r.stopped { rest := DrainsInFull(cfg, r); }
      tales := [t] + rest;
      TalesCons(t, rest);
      DrainJoins(cfg, d, t, r, rest);
    }
  }

  lemma DrainJoins(cfg: Config, d: Progress, t: Tale, r: Progress, rest: seq<Tale>)
    requires d.taken < |cfg.jobs| && r == Round(cfg, d.(stopped := false), DrainCut(cfg, d))
    requires t.batch == cfg.jobs[d.taken..r.taken] && r.log == d.log + t.recs && r.taken == d.taken + DrainCut(cfg, d)
    requires if r.stopped then Failed(cfg, d.round, t) else Succeeded(cfg, d.round, t)
    requires r.round == d.round + 1
    requires if r.stopped then rest == [] else
      var q := Drain(cfg, r);
      && r.taken <= q.taken <= |cfg.jobs| && JobsOf(rest) == cfg.jobs[r.taken..q.taken] && q.log == r.log + LogOf(rest)
      && (rest == [] <==> r.taken == |cfg.jobs|)
      && (rest != [] ==> FullRounds(cfg, r.round, rest, q.stopped) && (q.taken == |cfg.jobs| || q.stopped))
    ensures var q := Drain(cfg, d);
      && d.taken <= q.taken <= |cfg.jobs| && t.batch + JobsOf(rest) == cfg.jobs[d.taken..q.taken]
      && q.log == d.log + (t.recs + LogOf(rest))
      && FullRounds(cfg, d.round, [t] + rest, q.stopped) && (q.taken == |cfg.jobs| || q.stopped)
  {
    DrainUnfolds(cfg, d, r);
    CutIsFull(cfg, d);
    if r.taken == |cfg.jobs| { DrainDone(cfg, r); }
    hide *;
    if r.stopped {
      Empty();
      assert [t] + rest == [t] && t.batch + [] == t.batch && t.recs + [] == t.recs;
      OneRound(cfg, d.round, t);
    } else {
      var q := Drain(cfg, r);
      Join(cfg.jobs, d.taken, r.taken, q.taken);
      Assoc(d.log, t.recs, LogOf(rest));
      if rest == [] { OneMore(cfg, d.round); }
      FullCons(cfg, d.round, t, rest, q.stopped);
    }
  }

  lemma Empty()
    ensures LogOf([]) == [] && JobsOf([]) == []
  {}

  lemma OneRound(cfg: Config, round: nat, t: Tale)
    requires Failed(cfg, round, t)
    ensures FullRounds(cfg, round, [t], true)
  {
    hide Failed, Succeeded;
  }

  lemma OneMore(cfg: Config, round: nat)
    ensures FullRounds(cfg, round + 1, [], false)
  {}

  lemma DrainUnfolds(cfg: Config, d: Progress, r: Progress)
    requires d.taken < |cfg.jobs| && r == Round(cfg, d.(stopped := false), DrainCut(cfg, d)) && r.taken <= |cfg.jobs|
    ensures Drain(cfg, d) == if r.stopped then r else Drain(cfg, r)
  {
    hide Round;
  }

  lemma DrainDone(cfg: Config, r: Progress)
    requires r.taken == |cfg.jobs|
    ensures Drain(cfg, r) == r
  {}

  lemma CutIsFull(cfg: Config, d: Progress)
    requires d.taken < |cfg.jobs|
    ensures DrainCut(cfg, d) == Cap(cfg) || d.taken + DrainCut(cfg, d) == |cfg.jobs|
    ensures d.taken + DrainCut(cfg, d) <= |cfg.jobs|
  {}

  lemma Join(jobs: seq<Job>, a: nat, b: nat, c: nat)
    requires a <= b <= c <= |jobs|
    ensures jobs[a..c] == jobs[a..b] + jobs[b..c] && |jobs[a..b]| == b - a
  {}

  lemma Assoc(a: seq<Record>, b: seq<Record>, c: seq<Record>)
    ensures (a + b) + c == a + (b + c)
  {}

  lemma {:induction false} TalesCons(t: Tale, rest: seq<Tale>)
    ensures LogOf([t] + rest) == t.recs + LogOf(rest) && JobsOf([t] + rest) == t.batch + JobsOf(rest)
  {
    if rest == [] {
      TalesSnoc([], t);
      assert [t] + rest == [] + [t];
    } else {
      var n := |rest| - 1;
      TalesCons(t, rest[..n]);
      TalesSnoc([t] + rest[..n], rest[n]);
      TalesSnoc(rest[..n], rest[n]);
      assert [t] + rest == ([t] + rest[..n]) + [rest[n]] && rest == rest[..n] + [rest[n]];
    }
  }

  /** Every life of the dispatcher is a sequence of rounds. The batches are the posted jobs, in order, none
      left out and none larger than the maximum. A round in which no required sink fails calls every sink and,
      with a callback, confirms for each source the largest LSN of exactly that batch; one in which a required
      sink fails stops there and confirms nothing. With a fatal callback only the last round can fail, and if
      none does every job has been through a round. */
  lemma LifeTold(cfg: Config, cuts: seq<nat>) returns (tales: seq<Tale>)
    requires CutsFit(cfg, 0, cuts)
    ensures LogOf(tales) == Life(cfg, cuts).log && JobsOf(tales) <= cfg.jobs
    ensures forall r :: 0 <= r < |tales| ==>
      1 <= |tales[r].batch| <= Cap(cfg) && (Succeeded(cfg, r, tales[r]) || Failed(cfg, r, tales[r]))
    ensures cfg.onFatal ==> forall r :: 0 <= r < |tales| - 1 ==> Succeeded(cfg, r, tales[r])
    ensures JobsOf(tales) == cfg.jobs || (tales != [] && Failed(cfg, |tales| - 1, tales[|tales| - 1]))
  {
    assert cfg.jobs[..0] == [];
    tales := ProcessTells(cfg, START, cuts, []);
    var d := Process(cfg, START, cuts);
    ProcessFatal(cfg, START, cuts);
    hide Process, Drain, Succeeded, Failed, JobsOf, LogOf;
    if !d.fatal { tales := DrainTells(cfg, d, tales); }
    assert forall r :: 0 <= r < |tales| ==> TaleOk(cfg, r, tales[r]);
    assert cfg.jobs[..|cfg.jobs|] == cfg.jobs;
  }

  lemma {:induction false} ProcessFatal(cfg: Config, d: Progress, cuts: seq<nat>)
    requires CutsFit(cfg, d.taken, cuts) && d.taken <= |cfg.jobs| && (d.fatal ==> d.stopped)
    ensures var r := Process(cfg, d, cuts); r.fatal ==> r.stopped
    decreases |cuts|
  {
    if cuts != [] && !d.stopped {
      FatalStops(cfg, d, cuts[0]);
      hide Round;
      ProcessFatal(cfg, Round(cfg, d, cuts[0]), cuts[1..]);
    }
  }

  /** So with sinks that never fail for good, every job is confirmed: some confirmation reaches its LSN. */
  lemma EverythingConfirmed(cfg: Config, cuts: seq<nat>, x: nat) returns (c: nat)
    requires CutsFit(cfg, 0, cuts) && cfg.onConfirmed && x < |cfg.jobs|
    requires forall r: nat, i: nat :: i < |cfg.required| && cfg.required[i] ==> !cfg.fails(r, i)
    ensures var log := Life(cfg, cuts).log;
      && c < |log| && log[c].Confirmed?
      && cfg.jobs[x].source in log[c].max && cfg.jobs[x].lsn <= log[c].max[cfg.jobs[x].source]
  {
    var tales := LifeTold(cfg, cuts);
    hide Life, LogOf, JobsOf, IsMax;
    forall r | 0 <= r < |tales| ensures Succeeded(cfg, r, tales[r]) {}
    assert JobsOf(tales) == cfg.jobs;
    c := ConfirmedIn(cfg, tales, x);
  }

  lemma {:induction false} ConfirmedIn(cfg: Config, tales: seq<Tale>, x: nat) returns (c: nat)
    requires cfg.onConfirmed && x < |JobsOf(tales)| && forall r :: 0 <= r < |tales| ==> Succeeded(cfg, r, tales[r])
    ensures var j := JobsOf(tales)[x];
      && c < |LogOf(tales)| && LogOf(tales)[c].Confirmed?
      && j.source in LogOf(tales)[c].max && j.lsn <= LogOf(tales)[c].max[j.source]
  {
    var n := |tales| - 1;
    var before := tales[..n];
    if x < |JobsOf(before)| {
      c := ConfirmedIn(cfg, before, x);
    } else {
      assert Succeeded(cfg, n, tales[n]);
      var k := |cfg.required|;
      c := |LogOf(before)| + k;
      assert tales[n].recs[k..][0] == tales[n].recs[k];
      assert tales[n].batch[x - |JobsOf(before)|] == JobsOf(tales)[x];
    }
  }
}
