/** The worker loops of src/event_dispatcher.cpp, proved to run the specification in Delivery. */
module Dispatcher {

  import opened Delivery
  import opened Retry

  lemma MaxLsnSnoc(batch: seq<Job>, j: Job)
    ensures MaxLsn(batch + [j]) == Raise(MaxLsn(batch), j)
  {}

  /** Moving the first queued job to the end of the batch that was taken just before it. */
  lemma TakeOne(jobs: seq<Job>, queue: seq<Job>, batch: seq<Job>)
    requires queue != [] && |queue| + |batch| <= |jobs|
    requires var t := |jobs| - |queue|; queue == jobs[t..] && batch == jobs[t - |batch|..t]
    ensures var t := |jobs| - |queue|; queue[1..] == jobs[t + 1..] && batch + [queue[0]] == jobs[t - |batch|..t + 1]
  {}

  /** The size a batch grows to from `n`: one flag of `more` per attempt to take another job. */
  function BatchSize(cfg: Config, taken: nat, more: seq<bool>, n: nat): (r: nat)
    ensures r >= n && (n <= Cap(cfg) ==> r <= Cap(cfg)) && (taken + n <= |cfg.jobs| ==> taken + r <= |cfg.jobs|)
    decreases |more|
  {
    if n < cfg.maxBatch && taken + n < |cfg.jobs| && more != [] && more[0] then BatchSize(cfg, taken, more[1..], n + 1)
    else n
  }

  /** A batch grows while it is not full, jobs are queued and each further one arrives in time, and no longer. */
  lemma {:induction false} BatchGrows(cfg: Config, taken: nat, more: seq<bool>, n: nat)
    ensures var k := BatchSize(cfg, taken, more, n) - n;
      && k <= |more| && (forall i :: 0 <= i < k ==> more[i])
      && (k > 0 ==> n + k <= cfg.maxBatch && taken + n + k <= |cfg.jobs|)
      && (n + k >= cfg.maxBatch || taken + n + k >= |cfg.jobs| || k == |more| || !more[k])
    decreases |more|
  {
    if n < cfg.maxBatch && taken + n < |cfg.jobs| && more != [] && more[0] {
      BatchGrows(cfg, taken, more[1..], n + 1);
      var k := BatchSize(cfg, taken, more, n) - n;
      forall i | 0 < i < k ensures more[i] { assert more[1..][i - 1] == more[i]; }
      if k < |more| { assert more[1..][k - 1] == more[k]; }
    }
  }

  /** The main loop as a function of what each wake-up finds. */
  function Serve(cfg: Config, d: Progress, wakeups: seq<(bool, seq<bool>)>): (r: Progress)
    requires d.taken <= |cfg.jobs|
    ensures r.taken <= |cfg.jobs|
    decreases |wakeups|
  {
    if wakeups == [] || d.stopped then d
    else if wakeups[0].0 && d.taken < |cfg.jobs| then
      Serve(cfg, Round(cfg, d, BatchSize(cfg, d.taken, wakeups[0].1, 1)), wakeups[1..])
    else Serve(cfg, d, wakeups[1..])
  }

  /** How many of the wake-ups find a job waiting. */
  function Arrivals(wakeups: seq<(bool, seq<bool>)>): nat {
    if wakeups == [] then 0 else (if wakeups[0].0 then 1 else 0) + Arrivals(wakeups[1..])
  }

  /** Every wake-up that finds a job is served: unless a dispatch fails, at least one job is taken for each of them
      while there are any, and none without. */
  lemma {:induction false} ServesArrivals(cfg: Config, d: Progress, wakeups: seq<(bool, seq<bool>)>)
    requires d.taken <= |cfg.jobs| && !d.stopped
    ensures var r := Serve(cfg, d, wakeups);
      && (r.stopped || r.taken >= d.taken + Arrivals(wakeups) || r.taken == |cfg.jobs|)
      && (Arrivals(wakeups) == 0 ==> r == d)
    decreases |wakeups|
  {
    hide BatchSize;
    if wakeups != [] {
      var found := wakeups[0].0 && d.taken < |cfg.jobs|;
      var next := if found then Round(cfg, d, BatchSize(cfg, d.taken, wakeups[0].1, 1)) else d;
      RoundTakes(cfg, d, BatchSize(cfg, d.taken, wakeups[0].1, 1));
      hide Round;
      if next.stopped { ServeEnd(cfg, next, wakeups[1..]); } else { ServesArrivals(cfg, next, wakeups[1..]); }
    }
  }

  lemma RoundTakes(cfg: Config, d: Progress, n: nat)
    ensures d.taken + n <= |cfg.jobs| ==> Round(cfg, d, n).taken == d.taken + n
  {
    hide SinkRound, MaxLsn;
  }

  /** Which dispatches fail, from what every sink does in every round. */
  function Outcomes(required: seq<bool>, backoff: Backoff, ceiling: nat, sinks: (nat, nat) -> Behaviour): (nat, nat) -> bool {
    (r: nat, i: nat) => i < |required| && Fails(required[i], sinks(r, i), backoff, ceiling)
  }

  /** A round whose first records are `recs` and whose other sinks give `rest`. */
  ghost predicate Joined(all: (seq<Record>, bool), recs: seq<Record>, rest: (seq<Record>, bool)) {
    all.0 == recs + rest.0 && all.1 == rest.1
  }

  lemma RoundStarts(cfg: Config, batch: seq<Job>, round: nat)
    ensures var all := SinkRound(cfg, batch, round, 0); Joined(all, [], all)
  {}

  lemma RoundEnds(cfg: Config, batch: seq<Job>, round: nat, all: (seq<Record>, bool), recs: seq<Record>)
    requires Joined(all, recs, SinkRound(cfg, batch, round, |cfg.required|))
    ensures all == (recs, true)
  {
    assert recs + [] == recs;
  }

  /** One more sink; the round is over when a required one fails. */
  lemma RoundStep(cfg: Config, batch: seq<Job>, round: nat, i: nat, all: (seq<Record>, bool), recs: seq<Record>, rec: Record)
    requires i < |cfg.required| && Joined(all, recs, SinkRound(cfg, batch, round, i))
    requires rec == if cfg.fails(round, i) && cfg.required[i] then GaveUp(i, batch)
                    else if cfg.fails(round, i) then Skipped(i, batch) else Accepted(i, batch)
    ensures if cfg.fails(round, i) && cfg.required[i] then all == (recs + [rec], false)
            else Joined(all, recs + [rec], SinkRound(cfg, batch, round, i + 1))
  {
    if !(cfg.fails(round, i) && cfg.required[i]) {
      assert recs + ([rec] + SinkRound(cfg, batch, round, i + 1).0) == (recs + [rec]) + SinkRound(cfg, batch, round, i + 1).0;
    }
  }

  lemma Append(a: seq<Record>, b: seq<Record>, r: Record)
    ensures (a + b) + [r] == a + (b + [r])
  {}

  class EventDispatcher {
    /** What the run will be given: every job that is ever posted and the settings (`given`), the
        retry times, and how sink `i` behaves in round `r` (`sinks(r, i)`). */
    const given: Config
    const backoff: Backoff
    const ceiling: nat
    const sinks: (nat, nat) -> Behaviour
    const cfg: Config := given.(fails := Outcomes(given.required, backoff, ceiling, sinks))

    var queue: seq<Job>
    var fatalTriggered: bool
    var round: nat
    var log: seq<Record>

    ghost predicate Valid()
      reads this
    {
      |queue| <= |cfg.jobs| && queue == cfg.jobs[Taken()..]
    }

    ghost function Taken(): int
      reads this
    {
      |cfg.jobs| - |queue|
    }

    ghost function State(stopped: bool): Progress
      requires Valid()
      reads this
    {
      Progress(Taken(), round, log, fatalTriggered, stopped)
    }

    /** The state before the last `n` jobs were taken. */
    ghost function Before(n: nat): Progress
      requires Valid() && n <= Taken()
      reads this
    {
      Progress(Taken() - n, round, log, fatalTriggered, false)
    }

    constructor (given: Config, backoff: Backoff, ceiling: nat, sinks: (nat, nat) -> Behaviour)
      ensures Valid() && State(false) == START
      ensures this.given == given && this.backoff == backoff && this.ceiling == ceiling && this.sinks == sinks
    {
      assert given.jobs[0..] == given.jobs;
      this.given, this.backoff, this.ceiling, this.sinks := given, backoff, ceiling, sinks;
      queue, fatalTriggered, round, log := given.jobs, false, 0, [];
    }

    /** Hands one batch to one sink; `rec` is what comes of it. */
    method DispatchTo(i: nat, batch: seq<Job>) returns (sent: bool, rec: Record)
      requires i < |cfg.required|
      ensures sent == !(cfg.fails(round, i) && cfg.required[i])
      ensures rec == if !sent then GaveUp(i, batch) else if cfg.fails(round, i) then Skipped(i, batch) else Accepted(i, batch)
    {
      hide Fails;
      var attempts, elapsed, slept;
      sent, attempts, elapsed, slept := DispatchWithRetry(cfg.required[i], backoff, ceiling, sinks(round, i));
      var taken := sinks(round, i).succeeds(attempts - 1);
      rec := if !sent then GaveUp(i, batch) else if taken then Accepted(i, batch) else Skipped(i, batch);
    }

    method ReportFatal()
      modifies `fatalTriggered, `log
      ensures fatalTriggered == (old(fatalTriggered) || cfg.onFatal)
      ensures log == old(log) + (if cfg.onFatal && !old(fatalTriggered) then [Fatal] else [])
    {
      if !fatalTriggered && cfg.onFatal {
        fatalTriggered := true;
        log := log + [Fatal];
      }
    }

    /** Hands one batch to the sinks in order, each with its retries. */
    method Dispatch(batch: seq<Job>) returns (ok: bool)
      modifies `fatalTriggered, `round, `log
      ensures round == old(round) + 1
      ensures var (recs, done) := SinkRound(cfg, batch, old(round), 0);
        && ok == done
        && log == old(log) + recs + (if !ok && cfg.onFatal && !old(fatalTriggered) then [Fatal] else [])
        && fatalTriggered == (old(fatalTriggered) || (!ok && cfg.onFatal))
    {
      ghost var n, was := round, log;
      ghost var recs: seq<Record> := [];
      ghost var all := SinkRound(cfg, batch, n, 0);
      RoundStarts(cfg, batch, n);
      hide SinkRound, Joined;
      for i := 0 to |cfg.required|
        invariant round == n && fatalTriggered == old(fatalTriggered) && log == was + recs
        invariant Joined(all, recs, SinkRound(cfg, batch, n, i))
      {
        var sent, rec := DispatchTo(i, batch);
        RoundStep(cfg, batch, n, i, all, recs, rec);
        log := log + [rec];
        Append(was, recs, rec);
        recs := recs + [rec];
        if !sent {
          ReportFatal();
          round := round + 1;
          return false;
        }
      }
      RoundEnds(cfg, batch, n, all, recs);
      round := round + 1;
      ok := true;
    }

    method NotifyConfirmed(max: map<SourceId, Lsn>)
      modifies `log
      ensures log == old(log) + (if cfg.onConfirmed then [Confirmed(max)] else [])
    {
      if cfg.onConfirmed { log := log + [Confirmed(max)]; }
    }

    /** Dispatches the batch that was taken off the queue, and confirms it if every required sink has
        it. */
    method Flush(batch: seq<Job>, max: map<SourceId, Lsn>) returns (ok: bool)
      requires Holding(batch, max)
      modifies `fatalTriggered, `round, `log
      ensures Valid()
      ensures State(!ok) == Round(cfg, old(Before(|batch|)), |batch|)
    {
      ok := Dispatch(batch);
      if ok { NotifyConfirmed(max); }
    }

    /** `batch` is what was last taken off the queue, `max` its LSNs. */
    ghost predicate Holding(batch: seq<Job>, max: map<SourceId, Lsn>)
      reads this
    {
      && Valid()
      && |batch| <= Taken()
      && batch == cfg.jobs[Taken() - |batch|..Taken()]
      && max == MaxLsn(batch)
    }

    /** Takes one more job into the batch. */
    method Take(batch: seq<Job>, max: map<SourceId, Lsn>) returns (batch': seq<Job>, max': map<SourceId, Lsn>)
      requires queue != [] && Holding(batch, max)
      modifies `queue
      ensures Valid() && Taken() == old(Taken()) + 1 && |batch'| == |batch| + 1 && Holding(batch', max')
      ensures |batch'| <= Taken() && Before(|batch'|) == old(Before(|batch|))
    {
      hide MaxLsn, Raise;
      TakeOne(cfg.jobs, queue, batch);
      MaxLsnSnoc(batch, queue[0]);
      batch', max' := batch + [queue[0]], Raise(max, queue[0]);
      queue := queue[1..];
    }

    /** Collects a batch: the first job, then more until the batch is full, the deadline passes or the
        queue stays empty (`more`, one flag per attempt). */
    method Collect(more: seq<bool>) returns (batch: seq<Job>, max: map<SourceId, Lsn>)
      requires Valid() && queue != []
      modifies `queue
      ensures Holding(batch, max) && 1 <= |batch| <= Cap(cfg) && Taken() == old(Taken()) + |batch|
      ensures old(Taken()) >= 0 && |batch| == BatchSize(cfg, old(Taken()), more, 1)
    {
      ghost var t := Taken();
      batch, max := Take([], map[]);
      var tries := 0;
      assert more[0..] == more;
      while |batch| < cfg.maxBatch && tries < |more| && more[tries] && queue != []
        invariant Holding(batch, max) && 1 <= |batch| <= Cap(cfg) && Taken() == t + |batch|
        invariant tries <= |more| && BatchSize(cfg, t, more[tries..], |batch|) == BatchSize(cfg, t, more, 1)
        decreases |queue|
      {
        assert more[tries..][0] == more[tries] && more[tries..][1..] == more[tries + 1..];
        batch, max := Take(batch, max);
        tries := tries + 1;
      }
    }

    /** One batch of the main loop. */
    method ServeOne(more: seq<bool>) returns (ok: bool)
      requires Valid() && queue != []
      modifies this
      ensures Valid() && old(Taken()) >= 0
      ensures State(!ok) == Round(cfg, old(State(false)), BatchSize(cfg, old(Taken()), more, 1))
    {
      hide Round, BatchSize, MaxLsn;
      var batch, max := Collect(more);
      ok := Flush(batch, max);
    }

    /** The main loop. A wake-up finds nothing, or starts a batch; the loop ends when the dispatcher is
        told to stop or a required sink gives up. */
    method ProcessBatches(wakeups: seq<(bool, seq<bool>)>) returns (ghost cuts: seq<nat>, stopped: bool)
      requires Valid() && State(false) == START
      modifies this
      ensures Valid() && CutsFit(cfg, 0, cuts) && State(stopped) == Process(cfg, START, cuts) == Serve(cfg, START, wakeups)
    {
      cuts, stopped := [], false;
      assert CutsFit(cfg, 0, cuts) && Process(cfg, START, cuts) == START;
      assert wakeups[0..] == wakeups;
      hide Process, Round, CutsFit, MaxLsn, Serve, BatchSize;
      var i := 0;
      while i < |wakeups| && !stopped
        invariant i <= |wakeups|
        invariant Valid() && CutsFit(cfg, 0, cuts) && State(stopped) == Process(cfg, START, cuts)
        invariant Taken() >= 0 && Serve(cfg, State(stopped), wakeups[i..]) == Serve(cfg, START, wakeups)
      {
        ServeStep(cfg, State(false), wakeups, i);
        var (arrived, more) := wakeups[i];
        i := i + 1;
        if arrived && queue != [] {
          ghost var n := BatchSize(cfg, Taken(), more, 1);
          ProcessSnoc(cfg, START, cuts, n);
          var ok := ServeOne(more);
          cuts, stopped := cuts + [n], !ok;
        }
      }
      ServeEnd(cfg, State(stopped), wakeups[i..]);
    }

    /** Flushes a batch that draining has filled, or the last one. */
    method FlushDrained(batch: seq<Job>, max: map<SourceId, Lsn>) returns (ok: bool)
      requires Holding(batch, max) && 1 <= |batch| <= Cap(cfg) && (|batch| == Cap(cfg) || queue == [])
      modifies `fatalTriggered, `round, `log
      ensures Valid()
      ensures (if ok then Drain(cfg, State(false)) else State(true)) == old(Drain(cfg, Before(|batch|)))
    {
      hide Round, Drain;
      DrainStep(cfg, Before(|batch|), |batch|);
      ok := Flush(batch, max);
    }

    /** What is still queued when the loop has ended. */
    method DrainRemaining() returns (stopped: bool)
      requires Valid()
      modifies this
      ensures Valid() && State(stopped) == Drain(cfg, old(State(false)))
    {
      ghost var want := Drain(cfg, State(false));
      var batch: seq<Job>, max := [], map[];
      NothingHeld();
      hide Holding, Drain, Round, DrainCut, Before;
      while queue != []
        invariant Valid() && Holding(batch, max) && |batch| < Cap(cfg) && |batch| <= Taken()
        invariant Drain(cfg, Before(|batch|)) == want
        decreases |queue|
      {
        batch, max := Take(batch, max);
        if |batch| >= cfg.maxBatch {
          var ok := FlushDrained(batch, max);
          if !ok { return true; }
          batch, max := [], map[];
          NothingHeld();
        }
      }
      if batch != [] {
        var ok := FlushDrained(batch, max);
        if !ok { return true; }
      }
      DrainEnd(cfg, State(false));
      return false;
    }

    lemma NothingHeld()
      requires Valid()
      ensures Holding([], map[]) && Taken() >= 0 && Before(0) == State(false)
    {}

    /** The worker thread: its log is a life of the specification, cut by the arrival of jobs. */
    method ProcessJobs(wakeups: seq<(bool, seq<bool>)>) returns (ghost cuts: seq<nat>)
      requires Valid() && State(false) == START
      modifies this
      ensures Valid() && CutsFit(cfg, 0, cuts) && Process(cfg, START, cuts) == Serve(cfg, START, wakeups)
      ensures log == Life(cfg, cuts).log
      ensures cfg.onFatal ==> Justified(cfg, log)
    {
      var stopped;
      cuts, stopped := ProcessBatches(wakeups);
      if !fatalTriggered {
        DrainIgnoresStopped(cfg, State(stopped));
        var _ := DrainRemaining();
      }
      if cfg.onFatal { LifeJustified(cfg, cuts); }
    }
  }

  lemma ServeStep(cfg: Config, d: Progress, wakeups: seq<(bool, seq<bool>)>, i: nat)
    requires d.taken <= |cfg.jobs| && !d.stopped && i < |wakeups|
    ensures Serve(cfg, d, wakeups[i..]) ==
      Serve(cfg, if wakeups[i].0 && d.taken < |cfg.jobs| then Round(cfg, d, BatchSize(cfg, d.taken, wakeups[i].1, 1)) else d,
            wakeups[i + 1..])
  {
    hide Round, BatchSize;
    assert wakeups[i..][0] == wakeups[i] && wakeups[i..][1..] == wakeups[i + 1..];
  }

  lemma ServeEnd(cfg: Config, d: Progress, wakeups: seq<(bool, seq<bool>)>)
    requires d.taken <= |cfg.jobs| && (d.stopped || wakeups == [])
    ensures Serve(cfg, d, wakeups) == d
  {}

  lemma {:induction false} ProcessSnoc(cfg: Config, d: Progress, cuts: seq<nat>, n: nat)
    requires CutsFit(cfg, d.taken, cuts) && d.taken <= |cfg.jobs|
    requires var r := Process(cfg, d, cuts); !r.stopped && 1 <= n <= Cap(cfg) && r.taken + n <= |cfg.jobs|
    ensures CutsFit(cfg, d.taken, cuts + [n])
    ensures Process(cfg, d, cuts + [n]) == Round(cfg, Process(cfg, d, cuts), n)
    decreases |cuts|
  {
    hide SinkRound, MaxLsn;
    if cuts == [] || d.stopped {
      assert Process(cfg, d, [n]) == Process(cfg, Round(cfg, d, n), []);
    } else {
      ProcessSnoc(cfg, Round(cfg, d, cuts[0]), cuts[1..], n);
      assert (cuts + [n])[1..] == cuts[1..] + [n];
    }
  }

  lemma DrainStep(cfg: Config, d: Progress, n: nat)
    requires !d.stopped && 1 <= n <= Cap(cfg) && d.taken + n <= |cfg.jobs|
    requires n == Cap(cfg) || d.taken + n == |cfg.jobs|
    ensures var r := Round(cfg, d, n); Drain(cfg, d) == if r.stopped then r else Drain(cfg, r)
  {}

  lemma DrainEnd(cfg: Config, d: Progress)
    requires d.taken == |cfg.jobs|
    ensures Drain(cfg, d) == d
  {}

  lemma DrainIgnoresStopped(cfg: Config, d: Progress)
    requires d.taken <= |cfg.jobs|
    ensures Drain(cfg, d).log == Drain(cfg, d.(stopped := false)).log
  {}
}
