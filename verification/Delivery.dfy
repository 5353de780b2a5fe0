/** The delivery protocol of src/event_dispatcher.cpp: jobs are taken from the queue in order, cut
    into batches, handed to every sink, and only then confirmed with the largest LSN per source.
    This module is the specification; Dispatcher holds the loops and Confirmation the theorem. */
module Delivery {

  type SourceId = nat
  type Lsn = nat

  /** One event on its way to the sinks: where it stands in its source's log, and its LSN. */
  datatype Job = Job(source: SourceId, pos: nat, lsn: Lsn)

  /** What the outside world sees of the dispatcher, in order. */
  datatype Record =
    | Accepted(sink: nat, batch: seq<Job>)
    | Skipped(sink: nat, batch: seq<Job>)
    | GaveUp(sink: nat, batch: seq<Job>)
    | Confirmed(max: map<SourceId, Lsn>)
    | Fatal

  /** `required[i]` tells whether sink `i` is required; `fails(r, i)` whether sink `i` fails for good
      in the `r`-th dispatch. */
  datatype Config = Config(
    jobs: seq<Job>, required: seq<bool>, maxBatch: nat, onFatal: bool, onConfirmed: bool, fails: (nat, nat) -> bool)

  /** `taken` jobs have left the queue, `round` dispatches have been made. */
  datatype Progress = Progress(taken: nat, round: nat, log: seq<Record>, fatal: bool, stopped: bool)

  const START := Progress(0, 0, [], false, false)

  function Cap(cfg: Config): (n: nat)
    ensures n >= 1
  {
    if cfg.maxBatch == 0 then 1 else cfg.maxBatch
  }

  /** The largest LSN of each source in a batch. */
  function MaxLsn(batch: seq<Job>): map<SourceId, Lsn> {
    if batch == [] then map[]
    else Raise(MaxLsn(batch[..|batch| - 1]), batch[|batch| - 1])
  }

  function Raise(m: map<SourceId, Lsn>, j: Job): map<SourceId, Lsn> {
    m[j.source := if j.source in m && m[j.source] > j.lsn then m[j.source] else j.lsn]
  }

  /** Hands `batch` to the sinks from number `i` on; stops at the first required one that fails. */
  function SinkRound(cfg: Config, batch: seq<Job>, round: nat, i: nat): (r: (seq<Record>, bool))
    requires i <= |cfg.required|
    decreases |cfg.required| - i
  {
    if i == |cfg.required| then ([], true)
    else if cfg.fails(round, i) && cfg.required[i] then ([GaveUp(i, batch)], false)
    else
      var rest := SinkRound(cfg, batch, round, i + 1);
      ([if cfg.fails(round, i) then Skipped(i, batch) else Accepted(i, batch)] + rest.0, rest.1)
  }

  /** One batch of `n` jobs. */
  function Round(cfg: Config, d: Progress, n: nat): Progress
    requires d.taken + n <= |cfg.jobs|
  {
    var batch := cfg.jobs[d.taken..d.taken + n];
    var (recs, ok) := SinkRound(cfg, batch, d.round, 0);
    if ok then
      d.(taken := d.taken + n, round := d.round + 1,
         log := d.log + recs + (if cfg.onConfirmed then [Confirmed(MaxLsn(batch))] else []))
    else
      d.(taken := d.taken + n, round := d.round + 1,
         log := d.log + recs + (if cfg.onFatal && !d.fatal then [Fatal] else []),
         fatal := d.fatal || cfg.onFatal, stopped := true)
  }

  predicate CutsFit(cfg: Config, taken: nat, cuts: seq<nat>)
    decreases |cuts|
  {
    cuts == [] ||
    (1 <= cuts[0] <= Cap(cfg) && taken + cuts[0] <= |cfg.jobs| && CutsFit(cfg, taken + cuts[0], cuts[1..]))
  }

  /** The main loop: timing decides how many jobs each batch gets. */
  function Process(cfg: Config, d: Progress, cuts: seq<nat>): (r: Progress)
    requires CutsFit(cfg, d.taken, cuts) && d.taken <= |cfg.jobs|
    ensures r.taken <= |cfg.jobs|
    decreases |cuts|
  {
    if cuts == [] || d.stopped then d else Process(cfg, Round(cfg, d, cuts[0]), cuts[1..])
  }

  /** The size of the next batch when the queue is drained. */
  function DrainCut(cfg: Config, d: Progress): (n: nat)
    requires d.taken < |cfg.jobs|
    ensures 1 <= n && d.taken + n <= |cfg.jobs|
  {
    if Cap(cfg) <= |cfg.jobs| - d.taken then Cap(cfg) else |cfg.jobs| - d.taken
  }

  /** Draining what is left in the queue on shutdown, until a required sink gives up. */
  function Drain(cfg: Config, d: Progress): Progress
    requires d.taken <= |cfg.jobs|
    decreases |cfg.jobs| - d.taken
  {
    if d.taken == |cfg.jobs| then d
    else
      var r := Round(cfg, d.(stopped := false), DrainCut(cfg, d));
      if r.stopped then r else Drain(cfg, r)
  }

  /** A whole life of the worker thread. */
  function Life(cfg: Config, cuts: seq<nat>): Progress
    requires CutsFit(cfg, 0, cuts)
  {
    var d := Process(cfg, START, cuts);
    if d.fatal then d else Drain(cfg, d)
  }

  // ---------- what a confirmation may rely on ----------

  /** Sink `i` has accepted a batch with `j` in it. */
  ghost predicate Has(log: seq<Record>, i: nat, j: Job) {
    exists r :: 0 <= r < |log| && log[r].Accepted? && log[r].sink == i && j in log[r].batch
  }

  /** Every required sink has accepted the first `n` jobs. */
  ghost predicate Delivered(cfg: Config, log: seq<Record>, n: nat)
    requires n <= |cfg.jobs|
  {
    forall y, i :: 0 <= y < n && 0 <= i < |cfg.required| && cfg.required[i] ==> Has(log, i, cfg.jobs[y])
  }

  /** LSN `l` of source `s` is that of a job up to which everything had been delivered. */
  ghost predicate Covered(cfg: Config, log: seq<Record>, s: SourceId, l: Lsn) {
    exists x :: 0 <= x < |cfg.jobs| && cfg.jobs[x].source == s && cfg.jobs[x].lsn == l && Delivered(cfg, log, x + 1)
  }

  /** Each confirmation in the log was covered when it was made. */
  ghost predicate Justified(cfg: Config, log: seq<Record>) {
    forall r, s :: 0 <= r < |log| && log[r].Confirmed? && s in log[r].max ==> Covered(cfg, log[..r], s, log[r].max[s])
  }

  /** `m` holds the largest LSN of each source of the batch, and of no other. */
  ghost predicate IsMax(m: map<SourceId, Lsn>, batch: seq<Job>) {
    && (forall s :: s in m ==> exists i :: 0 <= i < |batch| && batch[i].source == s && batch[i].lsn == m[s])
    && (forall i :: 0 <= i < |batch| ==> batch[i].source in m && batch[i].lsn <= m[batch[i].source])
  }

  lemma RaiseIsMax(m: map<SourceId, Lsn>, batch: seq<Job>, j: Job)
    requires IsMax(m, batch)
    ensures IsMax(Raise(m, j), batch + [j])
  {
    var m', batch' := Raise(m, j), batch + [j];
    forall s | s in m' ensures exists i :: 0 <= i < |batch'| && batch'[i].source == s && batch'[i].lsn == m'[s] {
      if s == j.source && m'[s] == j.lsn {
        assert batch'[|batch|] == j;
      } else {
        assert s in m && m[s] == m'[s];
        var i :| 0 <= i < |batch| && batch[i].source == s && batch[i].lsn == m[s];
        assert batch'[i] == batch[i];
      }
    }
    forall i | 0 <= i < |batch'| ensures batch'[i].source in m' && batch'[i].lsn <= m'[batch'[i].source] {
      if i < |batch| { assert batch'[i] == batch[i]; }
    }
  }

  lemma {:induction false} MaxLsnIs(batch: seq<Job>)
    ensures IsMax(MaxLsn(batch), batch)
  {
    if batch != [] {
      var n := |batch| - 1;
      MaxLsnIs(batch[..n]);
      hide IsMax, Raise;
      assert batch == batch[..n] + [batch[n]];
      RaiseIsMax(MaxLsn(batch[..n]), batch[..n], batch[n]);
    }
  }

  lemma HasGrows(log: seq<Record>, more: seq<Record>, i: nat, j: Job)
    requires Has(log, i, j)
    ensures Has(log + more, i, j)
  {
    var r :| 0 <= r < |log| && log[r].Accepted? && log[r].sink == i && j in log[r].batch;
    assert (log + more)[r] == log[r];
  }

  lemma DeliveredGrows(cfg: Config, log: seq<Record>, more: seq<Record>, n: nat)
    requires n <= |cfg.jobs| && Delivered(cfg, log, n)
    ensures Delivered(cfg, log + more, n)
  {
    forall y, i | 0 <= y < n && 0 <= i < |cfg.required| && cfg.required[i] ensures Has(log + more, i, cfg.jobs[y]) {
      HasGrows(log, more, i, cfg.jobs[y]);
    }
  }

  /** A dispatch that succeeds has handed the batch to every required sink, and none of its records
      is a confirmation. */
  lemma {:induction false} SinkRoundDelivers(cfg: Config, batch: seq<Job>, round: nat, i: nat)
    requires i <= |cfg.required|
    ensures var (recs, ok) := SinkRound(cfg, batch, round, i);
      && (forall r :: 0 <= r < |recs| ==> !recs[r].Confirmed?)
      && (ok ==> forall k, j :: i <= k < |cfg.required| && cfg.required[k] && j in batch ==> Has(recs, k, j))
    decreases |cfg.required| - i
  {
    if i < |cfg.required| && !(cfg.fails(round, i) && cfg.required[i]) {
      SinkRoundDelivers(cfg, batch, round, i + 1);
      var (recs, ok) := SinkRound(cfg, batch, round, i);
      var rest := SinkRound(cfg, batch, round, i + 1).0;
      forall k, j | ok && i <= k < |cfg.required| && cfg.required[k] && j in batch ensures Has(recs, k, j) {
        if k == i {
          assert recs[0] == Accepted(i, batch);
        } else {
          var r :| 0 <= r < |rest| && rest[r].Accepted? && rest[r].sink == k && j in rest[r].batch;
          assert recs[r + 1] == rest[r];
        }
      }
    }
  }

  /** Records that are not confirmations do not affect what is justified. */
  lemma JustifiedAppend(cfg: Config, log: seq<Record>, more: seq<Record>)
    requires Justified(cfg, log) && forall r :: 0 <= r < |more| ==> !more[r].Confirmed?
    ensures Justified(cfg, log + more)
  {
    forall r, s | 0 <= r < |log + more| && (log + more)[r].Confirmed? && s in (log + more)[r].max
      ensures Covered(cfg, (log + more)[..r], s, (log + more)[r].max[s])
    {
      assert (log + more)[..r] == log[..r];
    }
  }

  /** What a successful dispatch of the next `n` jobs adds to what was delivered before. */
  lemma DeliveredAfter(cfg: Config, log: seq<Record>, recs: seq<Record>, from: nat, n: nat)
    requires from + n <= |cfg.jobs| && Delivered(cfg, log, from)
    requires forall k, j :: 0 <= k < |cfg.required| && cfg.required[k] && j in cfg.jobs[from..from + n] ==> Has(recs, k, j)
    ensures Delivered(cfg, log + recs, from + n)
  {
    hide Has;
    forall y, i | 0 <= y < from + n && 0 <= i < |cfg.required| && cfg.required[i]
      ensures Has(log + recs, i, cfg.jobs[y])
    {
      if y < from {
        HasGrows(log, recs, i, cfg.jobs[y]);
      } else {
        assert cfg.jobs[y] == cfg.jobs[from..from + n][y - from];
        HasAfter(log, recs, i, cfg.jobs[y]);
      }
    }
  }

  /** A successful round delivers its batch and confirms only what is covered; a failed one confirms
      nothing. */
  lemma RoundJustified(cfg: Config, d: Progress, n: nat)
    requires d.taken + n <= |cfg.jobs| && Justified(cfg, d.log) && Delivered(cfg, d.log, d.taken)
    requires !d.stopped
    ensures var r := Round(cfg, d, n);
      Justified(cfg, r.log) && (!r.stopped ==> Delivered(cfg, r.log, r.taken))
  {
    hide Has, Delivered, Justified, SinkRound, MaxLsn;
    var batch := cfg.jobs[d.taken..d.taken + n];
    var (recs, ok) := SinkRound(cfg, batch, d.round, 0);
    SinkRoundDelivers(cfg, batch, d.round, 0);
    JustifiedAppend(cfg, d.log, recs);
    var log := d.log + recs;
    if ok {
      DeliveredAfter(cfg, d.log, recs, d.taken, n);
      if cfg.onConfirmed {
        ConfirmJustified(cfg, log, d.taken, n);
        DeliveredGrows(cfg, log, [Confirmed(MaxLsn(batch))], d.taken + n);
      } else {
        assert log + [] == log;
      }
    } else {
      JustifiedAppend(cfg, log, if cfg.onFatal && !d.fatal then [Fatal] else []);
    }
  }

  lemma HasAfter(log: seq<Record>, more: seq<Record>, i: nat, j: Job)
    requires Has(more, i, j)
    ensures Has(log + more, i, j)
  {
    var r :| 0 <= r < |more| && more[r].Accepted? && more[r].sink == i && j in more[r].batch;
    assert (log + more)[|log| + r] == more[r];
  }

  lemma ConfirmJustified(cfg: Config, log: seq<Record>, from: nat, n: nat)
    requires from + n <= |cfg.jobs| && Justified(cfg, log) && Delivered(cfg, log, from + n)
    ensures Justified(cfg, log + [Confirmed(MaxLsn(cfg.jobs[from..from + n]))])
  {
    var batch := cfg.jobs[from..from + n];
    MaxLsnIs(batch);
    var log' := log + [Confirmed(MaxLsn(batch))];
    forall r, s | 0 <= r < |log'| && log'[r].Confirmed? && s in log'[r].max ensures Covered(cfg, log'[..r], s, log'[r].max[s]) {
      assert log'[..r] == log[..r];
      if r == |log| {
        assert log[..r] == log;
        var i :| 0 <= i < |batch| && batch[i].source == s && batch[i].lsn == MaxLsn(batch)[s];
        assert cfg.jobs[from + i] == batch[i] && Delivered(cfg, log, from + i + 1);
      }
    }
  }

  // ---------- whole lives of the dispatcher ----------

  ghost predicate Sound(cfg: Config, d: Progress) {
    && d.taken <= |cfg.jobs|
    && Justified(cfg, d.log)
    && (!d.stopped ==> Delivered(cfg, d.log, d.taken))
  }

  lemma {:induction false} ProcessSound(cfg: Config, d: Progress, cuts: seq<nat>)
    requires CutsFit(cfg, d.taken, cuts) && Sound(cfg, d)
    requires d.stopped ==> d.taken > 0 && (cfg.onFatal ==> d.fatal)
    ensures var r := Process(cfg, d, cuts);
      Sound(cfg, r) && (r.stopped ==> r.taken > 0 && (cfg.onFatal ==> r.fatal))
    decreases |cuts|
  {
    hide Justified, Delivered, SinkRound;
    if cuts != [] && !d.stopped {
      RoundJustified(cfg, d, cuts[0]);
      ProcessSound(cfg, Round(cfg, d, cuts[0]), cuts[1..]);
    }
  }

  lemma {:induction false} DrainSound(cfg: Config, d: Progress)
    requires d.taken <= |cfg.jobs| && Justified(cfg, d.log)
    requires d.taken == |cfg.jobs| || Delivered(cfg, d.log, d.taken)
    ensures Justified(cfg, Drain(cfg, d).log)
    decreases |cfg.jobs| - d.taken
  {
    hide Justified, Delivered, SinkRound;
    if d.taken < |cfg.jobs| {
      var e := d.(stopped := false);
      RoundJustified(cfg, e, DrainCut(cfg, d));
      var r := Round(cfg, e, DrainCut(cfg, d));
      if !r.stopped { DrainSound(cfg, r); }
    }
  }

  predicate NoneRequired(cfg: Config) {
    forall i :: 0 <= i < |cfg.required| ==> !cfg.required[i]
  }

  /** However the batches are cut and whichever sinks fail, every confirmation is covered. */
  lemma LifeJustified(cfg: Config, cuts: seq<nat>)
    requires CutsFit(cfg, 0, cuts)
    requires cfg.onFatal || NoneRequired(cfg) || |cfg.jobs| < 2
    ensures Justified(cfg, Life(cfg, cuts).log)
  {
    ProcessSound(cfg, START, cuts);
    var d := Process(cfg, START, cuts);
    if !d.fatal { DrainSound(cfg, d); }
  }

  // ---------- without a fatal callback ----------

  /** No event is posted twice; several may share an LSN. */
  predicate Distinct(jobs: seq<Job>) {
    forall x, y :: 0 <= x < y < |jobs| ==> jobs[x] != jobs[y]
  }

  /** The confirmation rule holds on every schedule and for every pattern of failures. */
  ghost predicate AlwaysJustified(cfg: Config) {
    forall fails: (nat, nat) -> bool, cuts :: CutsFit(cfg, 0, cuts) ==>
      CutsFit(cfg.(fails := fails), 0, cuts) && Justified(cfg.(fails := fails), Life(cfg.(fails := fails), cuts).log)
  }

  lemma {:induction false} CutsFitAnyFails(cfg: Config, fails: (nat, nat) -> bool, taken: nat, cuts: seq<nat>)
    requires CutsFit(cfg, taken, cuts)
    ensures CutsFit(cfg.(fails := fails), taken, cuts)
    decreases |cuts|
  {
    if cuts != [] { CutsFitAnyFails(cfg, fails, taken + cuts[0], cuts[1..]); }
  }

  /** Every dispatch after the first succeeds. */
  function FirstFails(): (nat, nat) -> bool { (r, i) => r == 0 }

  /** In a round that cannot fail, sink `i` gets the batch and nothing else. */
  lemma {:induction false} CleanRound(cfg: Config, batch: seq<Job>, round: nat, i: nat)
    requires i <= |cfg.required| && forall k :: 0 <= k < |cfg.required| ==> !cfg.fails(round, k)
    ensures var (recs, ok) := SinkRound(cfg, batch, round, i);
      ok && forall r :: 0 <= r < |recs| ==> recs[r].Accepted? && recs[r].batch == batch
    decreases |cfg.required| - i
  {
    if i < |cfg.required| { CleanRound(cfg, batch, round, i + 1); }
  }

  /** In the failing round the first required sink gives up, and no required sink has accepted. */
  lemma {:induction false} FailedRound(cfg: Config, batch: seq<Job>, round: nat, i: nat, k: nat)
    requires i <= k < |cfg.required| && cfg.required[k]
    requires forall n :: 0 <= n < |cfg.required| ==> cfg.fails(round, n)
    ensures var (recs, ok) := SinkRound(cfg, batch, round, i);
      !ok && forall r :: 0 <= r < |recs| ==> !recs[r].Accepted?
    decreases k - i
  {
    if !cfg.required[i] { FailedRound(cfg, batch, round, i + 1, k); }
  }

  /** A log none of whose accepted batches holds the first job. */
  predicate FirstLost(cfg: Config, log: seq<Record>)
    requires cfg.jobs != []
  {
    forall r :: 0 <= r < |log| && log[r].Accepted? ==> cfg.jobs[0] !in log[r].batch
  }

  /** A confirmation made after the first job was lost, for a later job, is not covered. */
  lemma LostIsNotCovered(cfg: Config, log: seq<Record>, k: nat, n: nat)
    requires 1 < n <= |cfg.jobs| && k < |cfg.required| && cfg.required[k]
    requires FirstLost(cfg, log)
    ensures !Justified(cfg, log + [Confirmed(MaxLsn(cfg.jobs[1..n]))])
  {
    var batch := cfg.jobs[1..n];
    var m := MaxLsn(batch);
    var s := batch[0].source;
    MaxLsnIs(batch);
    var log' := log + [Confirmed(m)];
    assert log'[|log|] == Confirmed(m) && log'[..|log|] == log;
    assert s in m;
  }

  lemma JustifiedPrefix(cfg: Config, log: seq<Record>, n: nat)
    requires n <= |log| && Justified(cfg, log)
    ensures Justified(cfg, log[..n])
  {
    forall r, s | 0 <= r < n && log[..n][r].Confirmed? && s in log[..n][r].max
      ensures Covered(cfg, log[..n][..r], s, log[..n][r].max[s])
    {
      assert log[..n][..r] == log[..r];
    }
  }

  lemma {:induction false} DrainExtends(cfg: Config, d: Progress)
    requires d.taken <= |cfg.jobs|
    ensures d.log <= Drain(cfg, d).log
    decreases |cfg.jobs| - d.taken
  {
    hide SinkRound, MaxLsn;
    if d.taken < |cfg.jobs| {
      var r := Round(cfg, d.(stopped := false), DrainCut(cfg, d));
      if !r.stopped { DrainExtends(cfg, r); }
    }
  }

  /** Without a fatal callback: a batch of one is given up, and draining confirms what comes after. */
  lemma LostWithoutFatal(cfg: Config, k: nat)
    requires cfg.onConfirmed && !cfg.onFatal && |cfg.jobs| >= 2 && Distinct(cfg.jobs)
    requires k < |cfg.required| && cfg.required[k] && cfg.fails == FirstFails()
    ensures CutsFit(cfg, 0, [1]) && !Justified(cfg, Life(cfg, [1]).log)
  {
    hide Justified, SinkRound, MaxLsn;
    var first := cfg.jobs[0..1];
    FailedRound(cfg, first, 0, 0, k);
    var d := Round(cfg, START, 1);
    assert Process(cfg, START, [1]) == Process(cfg, d, []) == d;
    assert d.stopped && !d.fatal && d.taken == 1 && d.round == 1;
    var n := 1 + DrainCut(cfg, d);
    CleanRound(cfg, cfg.jobs[1..n], 1, 0);
    var recs := SinkRound(cfg, cfg.jobs[1..n], 1, 0).0;
    var r := Round(cfg, d.(stopped := false), n - 1);
    var log := d.log + recs;
    assert FirstLost(cfg, log) by {
      forall j | j in cfg.jobs[1..n] ensures j != cfg.jobs[0] {}
    }
    LostIsNotCovered(cfg, log, k, n);
    assert r.log == log + [Confirmed(MaxLsn(cfg.jobs[1..n]))];
    DrainExtends(cfg, r);
    var whole := Life(cfg, [1]).log;
    assert whole == Drain(cfg, d).log;
    assert whole[..|r.log|] == r.log;
    if Justified(cfg, whole) { JustifiedPrefix(cfg, whole, |r.log|); }
  }

  /** Confirmations are sound on every schedule exactly when a fatal callback is installed, or nothing
      can be given up, or there is nothing left to drain after it. */
  lemma FatalCallbackIsNeeded(cfg: Config)
    requires cfg.onConfirmed && Distinct(cfg.jobs)
    ensures AlwaysJustified(cfg) <==> cfg.onFatal || NoneRequired(cfg) || |cfg.jobs| < 2
  {
    hide Justified, Life, Distinct;
    if cfg.onFatal || NoneRequired(cfg) || |cfg.jobs| < 2 {
      forall fails: (nat, nat) -> bool, cuts | CutsFit(cfg, 0, cuts)
        ensures CutsFit(cfg.(fails := fails), 0, cuts)
        ensures Justified(cfg.(fails := fails), Life(cfg.(fails := fails), cuts).log)
      {
        CutsFitAnyFails(cfg, fails, 0, cuts);
        LifeJustified(cfg.(fails := fails), cuts);
      }
    } else {
      var k :| 0 <= k < |cfg.required| && cfg.required[k];
      var bad := cfg.(fails := FirstFails());
      LostWithoutFatal(bad, k);
      CutsFitAnyFails(bad, cfg.fails, 0, [1]);
      assert bad.(fails := cfg.fails) == cfg;
      assert CutsFit(cfg, 0, [1]);
    }
  }
}
