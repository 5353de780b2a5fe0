/** The drain loop of src/backfill_worker.cpp: claim, rehydrate, hand to every sink, mark done. */
module BackfillWorker {

  import opened Wrappers
  import opened Events
  import opened Backfill

  /** One call of a sink that returned. */
  datatype Delivery = Delivery(sink: nat, batch: seq<Event>)

  /** Every sink has been given the event. */
  ghost predicate AllHave(log: seq<Delivery>, sinks: nat, ev: Event) {
    forall s :: 0 <= s < sinks ==> SinkHas(log, s, ev)
  }

  ghost predicate SinkHas(log: seq<Delivery>, s: nat, ev: Event) {
    exists r :: 0 <= r < |log| && log[r].sink == s && ev in log[r].batch
  }

  lemma SinkHasGrows(log: seq<Delivery>, d: Delivery, s: nat, ev: Event)
    requires SinkHas(log, s, ev) || (d.sink == s && ev in d.batch)
    ensures SinkHas(log + [d], s, ev)
  {
    if SinkHas(log, s, ev) {
      var r :| 0 <= r < |log| && log[r].sink == s && ev in log[r].batch;
      assert (log + [d])[r] == log[r];
    } else {
      assert (log + [d])[|log|] == d;
    }
  }

  function EventOf(key: RowKey, data: Json): Event {
    Event(Insert, key.table, Some(Rehydrate(data)), None)
  }

  method ToChangeEvents(claimed: seq<ClaimedRow>) returns (events: seq<Event>)
    ensures |events| == |claimed|
    ensures forall i :: 0 <= i < |claimed| ==> events[i] == EventOf(claimed[i].key, claimed[i].data)
  {
    events := [];
    for i := 0 to |claimed|
      invariant |events| == i
      invariant forall n :: 0 <= n < i ==> events[n] == EventOf(claimed[n].key, claimed[n].data)
    {
      var ev := ToChangeEvent(claimed[i]);
      events := events + [ev];
    }
  }

  /** Hands a batch to the sinks in order; stops at the first that throws. */
  method CallSinks(sinks: nat, throws: nat -> bool, batch: seq<Event>, log: seq<Delivery>)
    returns (ok: bool, log': seq<Delivery>)
    ensures ok <==> forall s :: 0 <= s < sinks ==> !throws(s)
    ensures ok ==> forall ev :: ev in batch ==> AllHave(log', sinks, ev)
    ensures forall s: nat, ev :: SinkHas(log, s, ev) ==> SinkHas(log', s, ev)
  {
    log' := log;
    for i := 0 to sinks
      invariant forall s :: 0 <= s < i ==> !throws(s)
      invariant forall s: nat, ev :: s < i && ev in batch ==> SinkHas(log', s, ev)
      invariant forall s: nat, ev :: SinkHas(log, s, ev) ==> SinkHas(log', s, ev)
    {
      if throws(i) { return false, log'; }
      forall s: nat, ev | SinkHas(log', s, ev) || (i == s && ev in batch) ensures SinkHas(log' + [Delivery(i, batch)], s, ev) {
        SinkHasGrows(log', Delivery(i, batch), s, ev);
      }
      log' := log' + [Delivery(i, batch)];
    }
    ok := true;
  }

  /** Nothing is lost: a row that was staged is still there with the data it had, or every sink has it. */
  ghost predicate NoneLost(before: Rows, after: Rows, log: seq<Delivery>, sinks: nat) {
    forall k :: k in before ==>
      if k in after then after[k].data == before[k].data && (before[k].claimed ==> after[k].claimed)
      else !before[k].claimed && AllHave(log, sinks, EventOf(k, before[k].data))
  }

  method MarkAllDone(store: BackfillStore, claimed: seq<ClaimedRow>)
    modifies store`rows
    ensures store.rows == old(store.rows) - KeysOf(claimed)
  {
    for i := 0 to |claimed|
      invariant store.rows == old(store.rows) - KeysOf(claimed[..i])
    {
      assert claimed[..i + 1] == claimed[..i] + [claimed[i]];
      KeysOfSnoc(claimed[..i], claimed[i]);
      store.MarkDone(claimed[i].key);
    }
    assert claimed[..|claimed|] == claimed;
  }

  /** Claiming a batch, delivering it everywhere and marking it done loses nothing and leaves fewer
      pending rows. */
  lemma BatchLosesNothing(start: Rows, before: Rows, claimed: seq<ClaimedRow>, mid: Rows, log: seq<Delivery>,
                          log': seq<Delivery>, sinks: nat)
    requires NoneLost(start, before, log, sinks) && before.Keys <= start.Keys && Held(claimed, before)
    requires Claimed(before, claimed, mid)
    requires forall s: nat, ev :: SinkHas(log, s, ev) ==> SinkHas(log', s, ev)
    ensures NoneLost(start, mid, log', sinks)
    ensures (forall i :: 0 <= i < |claimed| ==> AllHave(log', sinks, EventOf(claimed[i].key, claimed[i].data))) ==>
      NoneLost(start, mid - KeysOf(claimed), log', sinks)
    ensures Pending(mid) == Pending(mid - KeysOf(claimed)) == Pending(before) - KeysOf(claimed)
  {}

  /** The drain loop. It ends, loses nothing whether it succeeds or not, and when it succeeds with a
      positive claim size it leaves nothing pending. With a claim size of zero it does nothing. */
  method Run(store: BackfillStore, claimSize: nat, sinks: nat, throws: (nat, nat) -> bool)
    returns (ok: bool, log: seq<Delivery>)
    modifies store`rows
    ensures NoneLost(old(store.rows), store.rows, log, sinks) && store.rows.Keys <= old(store.rows.Keys)
    ensures ok && claimSize > 0 ==> Pending(store.rows) == {}
    ensures claimSize == 0 ==> ok && store.rows == old(store.rows)
    ensures ok ==> forall k :: k in store.rows ==> store.rows[k] == old(store.rows)[k]
  {
    log := [];
    var round: nat := 0;
    hide AllHave, SinkHas, EventOf;
    while true
      invariant NoneLost(old(store.rows), store.rows, log, sinks) && store.rows.Keys <= old(store.rows.Keys)
      invariant forall k :: k in store.rows ==> store.rows[k] == old(store.rows)[k]
      invariant claimSize == 0 ==> store.rows == old(store.rows)
      decreases |Pending(store.rows)|
    {
      ghost var before := store.rows;
      var claimed := store.ClaimPending(claimSize);
      RestUnchanged(before, claimed, store.rows);
      if claimed == [] { return true, log; }
      var events := ToChangeEvents(claimed);
      var delivered, log' := CallSinks(sinks, (s: nat) => throws(round, s), events, log);
      BatchLosesNothing(old(store.rows), before, claimed, store.rows, log, log', sinks);
      log := log';
      if !delivered { return false, log; }
      assert claimed[0].key in Pending(before) && claimed[0].key in KeysOf(claimed);
      Shrinks(Pending(before), KeysOf(claimed), claimed[0].key);
      MarkAllDone(store, claimed);
      round := round + 1;
    }
  }

  lemma RestUnchanged(before: Rows, claimed: seq<ClaimedRow>, mid: Rows)
    requires Claimed(before, claimed, mid)
    ensures claimed == [] ==> mid == before
    ensures var rest := mid - KeysOf(claimed); forall k :: k in rest ==> k in before && rest[k] == before[k]
  {
    assert claimed == [] ==> KeysOf(claimed) == {};
  }

  lemma Shrinks<T>(a: set<T>, b: set<T>, x: T)
    requires x in a && x in b
    ensures |a - b| < |a|
  {
    assert a - b <= a - {x};
    SubsetSmaller(a - b, a - {x});
  }
}
