/** What a confirmed LSN means for the source: src/pgreplication_source.cpp stamps every event with
    the LSN of its message, hands it to the backfill store or posts it, and reports the confirmed LSN
    to the server, which resumes behind it. */
module Confirmation {

  import opened Delivery

  /** One event of a source's stream, in the order the server sends it. */
  datatype WalEvent = WalEvent(lsn: Lsn, commit: bool)

  type Wal = SourceId -> seq<WalEvent>

  /** Transactions are sent whole and in commit order: a commit lies above everything before it. */
  ghost predicate CommitOrdered(wal: Wal) {
    forall s: SourceId, x, q :: 0 <= x < q < |wal(s)| && wal(s)[q].commit ==> wal(s)[x].lsn < wal(s)[q].lsn
  }

  /** An event as it comes off the connection: absorbed by the backfill store, or posted. */
  datatype Entry = Entry(job: Job, absorbed: bool)

  function CountOf(entries: seq<Entry>, s: SourceId): nat {
    if entries == [] then 0
    else CountOf(entries[..|entries| - 1], s) + (if entries[|entries| - 1].job.source == s then 1 else 0)
  }

  /** `entries` mixes the streams of the sources, each in its own order from position `start(s)`. */
  predicate IsStream(wal: Wal, start: SourceId -> nat, entries: seq<Entry>) {
    forall i :: 0 <= i < |entries| ==>
      var j := entries[i].job;
      && j.pos == start(j.source) + CountOf(entries[..i], j.source)
      && j.pos < |wal(j.source)|
      && j.lsn == wal(j.source)[j.pos].lsn
  }

  function Posted(entries: seq<Entry>): seq<Job> {
    if entries == [] then []
    else Posted(entries[..|entries| - 1]) + (if entries[|entries| - 1].absorbed then [] else [entries[|entries| - 1].job])
  }

  lemma {:induction false} PostedPrefix(entries: seq<Entry>, i: nat)
    requires i <= |entries|
    ensures Posted(entries[..i]) <= Posted(entries)
  {
    if i == |entries| {
      assert entries[..i] == entries;
    } else {
      assert entries[..|entries| - 1][..i] == entries[..i];
      PostedPrefix(entries[..|entries| - 1], i);
    }
  }

  /** Where the posted job `x` came off the connection: everything posted before it came earlier. */
  lemma {:induction false} PostedAt(entries: seq<Entry>, x: nat) returns (i: nat)
    requires x < |Posted(entries)|
    ensures i < |entries| && !entries[i].absorbed && entries[i].job == Posted(entries)[x]
    ensures Posted(entries[..i]) == Posted(entries)[..x]
  {
    var n := |entries| - 1;
    if x < |Posted(entries[..n])| {
      i := PostedAt(entries[..n], x);
      assert entries[..n][..i] == entries[..i];
    } else {
      i := n;
    }
  }

  /** Entry `i`, if it was posted, is among what had been posted just after it. */
  lemma PostedHas(entries: seq<Entry>, i: nat)
    requires i < |entries| && !entries[i].absorbed
    ensures entries[i].job in Posted(entries[..i + 1])
  {}

  lemma StreamPrefix(wal: Wal, start: SourceId -> nat, entries: seq<Entry>, n: nat)
    requires n <= |entries| && IsStream(wal, start, entries)
    ensures IsStream(wal, start, entries[..n])
  {
    hide CountOf;
    forall k | 0 <= k < n ensures entries[..n][..k] == entries[..k] {}
  }

  lemma {:induction false} CountGrows(entries: seq<Entry>, i: nat, s: SourceId)
    requires i <= |entries|
    ensures CountOf(entries[..i], s) <= CountOf(entries, s)
  {
    if i == |entries| {
      assert entries[..i] == entries;
    } else {
      assert entries[..|entries| - 1][..i] == entries[..i];
      CountGrows(entries[..|entries| - 1], i, s);
    }
  }

  /** Everything posted before entry `n` lies before it in its stream. */
  lemma {:induction false} PostedBefore(wal: Wal, start: SourceId -> nat, entries: seq<Entry>, n: nat, j: Job)
    requires IsStream(wal, start, entries) && n < |entries| && j in Posted(entries[..n])
    ensures j != entries[n].job
  {
    var x :| 0 <= x < |Posted(entries[..n])| && Posted(entries[..n])[x] == j;
    var at := PostedAt(entries[..n], x);
    assert entries[..n][at] == entries[at] && entries[..n][..at + 1] == entries[..at + 1];
    if entries[at].job.source == entries[n].job.source {
      CountThrough(wal, start, entries, at);
      CountGrows(entries[..n], at + 1, entries[n].job.source);
    }
  }

  /** What a source posts is pairwise different, so the exact condition on the fatal callback applies. */
  lemma {:induction false} PostedDistinct(wal: Wal, start: SourceId -> nat, entries: seq<Entry>)
    requires IsStream(wal, start, entries)
    ensures Distinct(Posted(entries))
  {
    if entries != [] {
      var n := |entries| - 1;
      StreamPrefix(wal, start, entries, n);
      PostedDistinct(wal, start, entries[..n]);
      hide IsStream, CountOf;
      forall x | 0 <= x < |Posted(entries[..n])| ensures Posted(entries[..n])[x] != entries[n].job {
        PostedBefore(wal, start, entries, n, Posted(entries[..n])[x]);
      }
    }
  }

  /** A source's stream has no gaps: every position up to the newest has come off the connection. */
  lemma {:induction false} NoGaps(wal: Wal, start: SourceId -> nat, entries: seq<Entry>, s: SourceId, p: nat)
    returns (i: nat)
    requires IsStream(wal, start, entries) && start(s) <= p < start(s) + CountOf(entries, s)
    ensures i < |entries| && entries[i].job.source == s && entries[i].job.pos == p
  {
    var n := |entries| - 1;
    if p < start(s) + CountOf(entries[..n], s) {
      StreamPrefix(wal, start, entries, n);
      i := NoGaps(wal, start, entries[..n], s, p);
    } else {
      i := n;
    }
  }

  /** Whatever a source sent up to the posted job `x` was absorbed, or posted no later than it. */
  lemma SentBefore(wal: Wal, start: SourceId -> nat, entries: seq<Entry>, x: nat, p: nat) returns (i: nat)
    requires IsStream(wal, start, entries) && x < |Posted(entries)|
    requires start(Posted(entries)[x].source) <= p <= Posted(entries)[x].pos
    ensures i < |entries| && entries[i].job.source == Posted(entries)[x].source && entries[i].job.pos == p
    ensures entries[i].absorbed || entries[i].job in Posted(entries)[..x + 1]
  {
    hide IsStream, CountOf, Posted;
    var at := PostedAt(entries, x);
    CountThrough(wal, start, entries, at);
    StreamPrefix(wal, start, entries, at + 1);
    i := NoGaps(wal, start, entries[..at + 1], entries[at].job.source, p);
    if !entries[i].absorbed {
      PostedHas(entries, i);
      PostedThrough(entries, at, i);
    }
  }

  lemma CountThrough(wal: Wal, start: SourceId -> nat, entries: seq<Entry>, at: nat)
    requires IsStream(wal, start, entries) && at < |entries|
    ensures var j := entries[at].job; j.pos + 1 == start(j.source) + CountOf(entries[..at + 1], j.source)
  {
    assert entries[..at + 1][..at] == entries[..at];
  }

  lemma PostedThrough(entries: seq<Entry>, at: nat, i: nat)
    requires i <= at < |entries| && !entries[at].absorbed && entries[i].job in Posted(entries[..i + 1])
    ensures entries[i].job in Posted(entries[..at]) + [entries[at].job]
  {
    var upto := entries[..at + 1];
    assert upto[..at] == entries[..at] && upto[..i + 1] == entries[..i + 1];
    PostedPrefix(upto, i + 1);
  }

  /** The event at position `p` of source `s` is safe: in the backfill store, or with every required sink. */
  ghost predicate Kept(cfg: Config, entries: seq<Entry>, log: seq<Record>, s: SourceId, p: nat) {
    exists i :: 0 <= i < |entries| && entries[i].job.source == s && entries[i].job.pos == p
      && (entries[i].absorbed || forall k :: 0 <= k < |cfg.required| && cfg.required[k] ==> Has(log, k, entries[i].job))
  }

  /** A covered LSN stands for a job, and everything the source sent up to that job is safe. */
  lemma CoveredKeeps(cfg: Config, wal: Wal, start: SourceId -> nat, entries: seq<Entry>, log: seq<Record>,
                     s: SourceId, l: Lsn, q: nat, p: nat)
    requires CommitOrdered(wal) && IsStream(wal, start, entries) && cfg.jobs == Posted(entries)
    requires Covered(cfg, log, s, l)
    requires start(s) <= p <= q < |wal(s)| && wal(s)[q].commit && wal(s)[q].lsn <= l
    ensures Kept(cfg, entries, log, s, p)
  {
    hide Has, Posted, CountOf;
    var x :| 0 <= x < |cfg.jobs| && cfg.jobs[x].source == s && cfg.jobs[x].lsn == l && Delivered(cfg, log, x + 1);
    PostedInLog(wal, start, entries, x);
    assert q <= cfg.jobs[x].pos;
    var i := SentBefore(wal, start, entries, x, p);
    if !entries[i].absorbed {
      var y :| 0 <= y <= x && cfg.jobs[y] == entries[i].job;
    }
  }

  lemma PostedInLog(wal: Wal, start: SourceId -> nat, entries: seq<Entry>, x: nat)
    requires IsStream(wal, start, entries) && x < |Posted(entries)|
    ensures var j := Posted(entries)[x]; j.pos < |wal(j.source)| && wal(j.source)[j.pos].lsn == j.lsn
  {
    var _ := PostedAt(entries, x);
  }

  /** At-least-once delivery: whenever the dispatcher has confirmed an LSN, every transaction that
      committed at or below it is safe, whatever was in flight. */
  lemma ConfirmedIsKept(cfg: Config, wal: Wal, start: SourceId -> nat, entries: seq<Entry>, cuts: seq<nat>, r: nat,
                        s: SourceId, q: nat, p: nat)
    requires CommitOrdered(wal) && IsStream(wal, start, entries) && cfg.jobs == Posted(entries) && cfg.onFatal
    requires CutsFit(cfg, 0, cuts)
    requires r < |Life(cfg, cuts).log| && Life(cfg, cuts).log[r].Confirmed? && s in Life(cfg, cuts).log[r].max
    requires start(s) <= p <= q < |wal(s)| && wal(s)[q].commit && wal(s)[q].lsn <= Life(cfg, cuts).log[r].max[s]
    ensures Kept(cfg, entries, Life(cfg, cuts).log[..r], s, p)
  {
    hide Covered, Kept, Life;
    LifeJustified(cfg, cuts);
    var log := Life(cfg, cuts).log;
    CoveredKeeps(cfg, wal, start, entries, log[..r], s, log[r].max[s], q, p);
  }

  // ---------- restarts ----------

  /** What survives a crash: which events are safe, and the LSN each slot has been told. */
  datatype Durable = Durable(kept: iset<(SourceId, nat)>, slot: SourceId -> Lsn)

  /** No transaction the server may skip has an event that is not safe. */
  ghost predicate NothingLost(wal: Wal, d: Durable) {
    forall s: SourceId, q, p ::
      0 <= p <= q < |wal(s)| && wal(s)[q].commit && wal(s)[q].lsn <= d.slot(s) ==> (s, p) in d.kept
  }

  /** The server resumes at a transaction boundary, skipping only transactions the slot covers. */
  ghost predicate Resumes(wal: Wal, slot: SourceId -> Lsn, start: SourceId -> nat) {
    forall s: SourceId :: start(s) == 0 ||
      (start(s) <= |wal(s)| && wal(s)[start(s) - 1].commit && wal(s)[start(s) - 1].lsn <= slot(s))
  }

  /** One incarnation of the process, up to the moment it stops: `crash` records were made, and each
      slot still holds what it held before or one of the LSNs confirmed since. */
  datatype Incarnation = Incarnation(cfg: Config, start: SourceId -> nat, entries: seq<Entry>, cuts: seq<nat>, crash: nat)

  ghost predicate Lives(wal: Wal, before: Durable, life: Incarnation, after: Durable) {
    && Resumes(wal, before.slot, life.start)
    && IsStream(wal, life.start, life.entries)
    && life.cfg.onFatal && life.cfg.jobs == Posted(life.entries)
    && CutsFit(life.cfg, 0, life.cuts)
    && life.crash <= |Life(life.cfg, life.cuts).log|
    && var log := Life(life.cfg, life.cuts).log[..life.crash];
    && (forall s: SourceId :: Reported(log, s, before.slot(s), after.slot(s)))
    && (forall s: SourceId, p: nat :: (s, p) in after.kept <==> (s, p) in before.kept || Kept(life.cfg, life.entries, log, s, p))
  }

  ghost predicate Reported(log: seq<Record>, s: SourceId, was: Lsn, now: Lsn) {
    now == was || exists r :: 0 <= r < |log| && log[r].Confirmed? && s in log[r].max && log[r].max[s] == now
  }

  lemma KeptGrows(cfg: Config, entries: seq<Entry>, log: seq<Record>, r: nat, s: SourceId, p: nat)
    requires r <= |log| && Kept(cfg, entries, log[..r], s, p)
    ensures Kept(cfg, entries, log, s, p)
  {}

  /** One incarnation loses nothing, wherever it is cut short. */
  lemma CrashLosesNothing(wal: Wal, before: Durable, life: Incarnation, after: Durable)
    requires CommitOrdered(wal) && NothingLost(wal, before) && Lives(wal, before, life, after)
    ensures NothingLost(wal, after)
  {
    hide Kept, Life, IsStream, CutsFit, CommitOrdered;
    var whole := Life(life.cfg, life.cuts).log;
    var log := whole[..life.crash];
    forall s: SourceId, q, p | 0 <= p <= q < |wal(s)| && wal(s)[q].commit && wal(s)[q].lsn <= after.slot(s)
      ensures (s, p) in after.kept
    {
      assert Reported(log, s, before.slot(s), after.slot(s));
      if after.slot(s) != before.slot(s) && life.start(s) <= p {
        var r :| 0 <= r < |log| && log[r].Confirmed? && s in log[r].max && log[r].max[s] == after.slot(s);
        assert log[..r] == whole[..r];
        ConfirmedIsKept(life.cfg, wal, life.start, life.entries, life.cuts, r, s, q, p);
        KeptGrows(life.cfg, life.entries, log, r, s, p);
      } else if life.start(s) > p {
        assert (s, p) in before.kept;
      }
    }
  }

  /** Any number of crashes and restarts: a transaction the server no longer sends is safe. */
  lemma {:induction false} RestartsLoseNothing(wal: Wal, states: seq<Durable>, lives: seq<Incarnation>)
    requires CommitOrdered(wal) && |states| == |lives| + 1 && NothingLost(wal, states[0])
    requires forall i :: 0 <= i < |lives| ==> Lives(wal, states[i], lives[i], states[i + 1])
    ensures NothingLost(wal, states[|lives|])
  {
    hide Lives, NothingLost, CommitOrdered;
    if |lives| > 0 {
      var n := |lives| - 1;
      RestartsLoseNothing(wal, states[..n + 1], lives[..n]);
      CrashLosesNothing(wal, states[n], lives[n], states[n + 1]);
    }
  }
}
