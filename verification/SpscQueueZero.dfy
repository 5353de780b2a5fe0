/** A queue built for no elements: its first block has a single slot and so can hold nothing, but the
    producer reuses it. The run below ends in a failed assertion, so the guarantees of
    SpscQueueTheorems hold exactly for queues built for at least one element. */
module SpscQueueZero {

  import opened Wrappers
  import opened SpscQueue
  import opened SpscQueueTheorems

  /** Some run leads from `s` to `t`. */
  ghost predicate Reaches<T(!new)>(s: State<T>, t: State<T>) {
    exists tr, acts :: IsRun(tr, acts) && tr[0] == s && tr[|acts|] == t
  }

  lemma Starts<T(!new)>(s: State<T>)
    ensures Reaches(s, s)
  {
    var tr, acts: seq<Action<T>> := [s], [];
    assert IsRun(tr, acts) && tr[|acts|] == s;
  }

  lemma Go<T(!new)>(s: State<T>, t: State<T>, a: Action<T>) returns (u: State<T>)
    requires Reaches(s, t) && InRange(t)
    ensures Reaches(s, u) && u == Next(t, a)
  {
    hide InRange, Next;
    var tr, acts :| IsRun(tr, acts) && tr[0] == s && tr[|acts|] == t;
    u := Next(t, a);
    assert IsRun(tr + [u], acts + [a]) && (tr + [u])[|acts + [a]|] == u;
  }

  /** The queue as built: one block of one slot. */
  function Fresh<T>(f: T, max: nat): State<T> {
    State(Mem([Block(0, 0, 0, 0, 0, [f])], 0, 0), 1, max, PIdle(true), CIdle(None), [], [], false)
  }

  /** After the first enqueue: a second block, of two slots, holds the element. The state is kept general
      in where the threads are and what block 0 contains. */
  function Grown<T>(f: T, x: T, slot: T, max: nat, front: nat, tail: nat, p: Producer<T>, c: Consumer<T>,
                    taken: nat, enq: seq<T>, deq: seq<T>): State<T>
  {
    State(Mem([Block(0, 0, 0, 0, 1, [slot]), Block(taken, 1, 1, 0, 0, [x, f])], front, tail), 2, max, p, c, enq, deq, false)
  }

  /** The first enqueue finds no room in block 0, */
  lemma NoRoom<T(!new)>(f: T, x: T, max: nat) returns (t: State<T>)
    requires max >= 2
    ensures Reaches(Fresh(f, max), t) && t == Fresh(f, max).(p := PLoadNext(x, CanAlloc, 0))
  {
    var s := Fresh(f, max);
    hide Reaches;
    Starts(s);
    t := Go(s, s, Enqueue(x, CanAlloc));
    t := Go(s, t, PStep([]));
    t := Go(s, t, PStep([]));
    t := Go(s, t, PStep([]));
    assert t.m.blocks == s.m.blocks;
  }

  /** sees that the next block is the front one, and allocates, */
  lemma Allocates<T(!new)>(f: T, x: T, max: nat) returns (t: State<T>)
    requires max >= 2
    ensures Reaches(Fresh(f, max), t)
    ensures t == Fresh(f, max).(largest := 2, p := PLinkNew(x, 0, Block(0, 1, 1, 0, 0, [x, f])))
  {
    var s := Fresh(f, max);
    t := NoRoom(f, x, max);
    hide Reaches;
    t := Go(s, t, PStep([]));
    t := Go(s, t, PStep([]));
    t := Go(s, t, PStep([f, f]));
    assert [f, f][0 := x] == [x, f];
  }

  /** and links and publishes the new block. */
  lemma Grows<T(!new)>(f: T, x: T, max: nat) returns (t: State<T>)
    requires max >= 2
    ensures Reaches(Fresh(f, max), t) && t == Grown(f, x, f, max, 0, 1, PIdle(true), CIdle(None), 0, [x], [])
  {
    var s := Fresh(f, max);
    t := Allocates(f, x, max);
    hide Reaches;
    t := Go(s, t, PStep([]));
    t := Go(s, t, PStep([]));
    assert t.m.blocks == Grown(f, x, f, max, 0, 0, PPublish(x, 1), CIdle(None), 0, [], []).m.blocks;
    t := Go(s, t, PStep([]));
    assert t.enq == [x];
  }

  /** A dequeue finds block 0 empty and not the tail, */
  lemma Leaves<T(!new)>(f: T, x: T, max: nat) returns (t: State<T>)
    requires max >= 2
    ensures Reaches(Fresh(f, max), t) && t == Grown(f, x, f, max, 0, 1, PIdle(true), CReloadFrontBlock, 0, [x], [])
  {
    var s := Fresh(f, max);
    t := Grows(f, x, max);
    var was := t;
    hide Reaches;
    t := Go(s, t, Dequeue);
    t := Go(s, t, CStep);
    t := Go(s, t, CStep);
    t := Go(s, t, CStep);
    t := Go(s, t, CStep);
    assert t.m.blocks == was.m.blocks;
  }

  /** looks again, */
  lemma LooksAgain<T(!new)>(f: T, x: T, max: nat) returns (t: State<T>)
    requires max >= 2
    ensures Reaches(Fresh(f, max), t) && t == Grown(f, x, f, max, 0, 1, PIdle(true), CNextFront(1), 0, [x], [])
  {
    var s := Fresh(f, max);
    t := Leaves(f, x, max);
    var was := t;
    hide Reaches;
    t := Go(s, t, CStep);
    t := Go(s, t, CStep);
    assert t.m.blocks == was.m.blocks;
    t := Go(s, t, CStep);
    t := Go(s, t, CStep);
  }

  /** and moves on to block 1, from which it has not yet read. */
  lemma Advances<T(!new)>(f: T, x: T, max: nat) returns (t: State<T>)
    requires max >= 2
    ensures Reaches(Fresh(f, max), t) && t == Grown(f, x, f, max, 1, 1, PIdle(true), CRead(1, 0), 0, [x], [])
  {
    var s := Fresh(f, max);
    t := LooksAgain(f, x, max);
    var was := t;
    hide Reaches;
    t := Go(s, t, CStep);
    t := Go(s, t, CStep);
    assert t.m.blocks == was.m.blocks;
    t := Go(s, t, CStep);
  }

  /** A second enqueue finds block 1 full and block 0 free, */
  lemma FindsFree<T(!new)>(f: T, x: T, y: T, max: nat) returns (t: State<T>)
    requires max >= 2
    ensures Reaches(Fresh(f, max), t) && t == Grown(f, x, f, max, 1, 1, PReloadNext(y, 1), CRead(1, 0), 0, [x], [])
  {
    var s := Fresh(f, max);
    t := Advances(f, x, max);
    var was := t;
    hide Reaches;
    t := Go(s, t, Enqueue(y, CannotAlloc));
    t := Go(s, t, PStep([]));
    t := Go(s, t, PStep([]));
    t := Go(s, t, PStep([]));
    assert t.m.blocks == was.m.blocks;
    t := Go(s, t, PStep([]));
    t := Go(s, t, PStep([]));
  }

  /** writes into its only slot, */
  lemma Writes<T(!new)>(f: T, x: T, y: T, max: nat) returns (t: State<T>)
    requires max >= 2
    ensures Reaches(Fresh(f, max), t)
    ensures t == Grown(f, x, y, max, 1, 1, PNextStoreTail(y, 0, 0), CRead(1, 0), 0, [x], [])
  {
    var s := Fresh(f, max);
    t := FindsFree(f, x, y, max);
    var was := t;
    hide Reaches;
    t := Go(s, t, PStep([]));
    t := Go(s, t, PStep([]));
    assert t.m.blocks == was.m.blocks;
    t := Go(s, t, PStep([]));
    assert t.m.blocks == was.m.blocks;
    t := Go(s, t, PStep([]));
    assert [f][0 := y] == [y];
    assert t.m.blocks == [Block(0, 0, 0, 0, 1, [y]), was.m.blocks[1]];
  }

  /** and publishes a block that looks empty; the dequeue then takes the first element. */
  lemma Publishes<T(!new)>(f: T, x: T, y: T, max: nat) returns (t: State<T>)
    requires max >= 2
    ensures Reaches(Fresh(f, max), t) && t == Grown(f, x, y, max, 1, 0, PIdle(true), CIdle(Some(x)), 1, [x, y], [x])
  {
    var s := Fresh(f, max);
    t := Writes(f, x, y, max);
    var was := t;
    hide Reaches;
    t := Go(s, t, PStep([]));
    assert t.m.blocks == was.m.blocks;
    t := Go(s, t, PStep([]));
    t := Go(s, t, CStep);
    t := Go(s, t, CStep);
    assert t.m.blocks == [was.m.blocks[0], Block(1, 1, 1, 0, 0, [x, f])];
  }

  /** The next dequeue leaves block 1, */
  lemma LeavesAgain<T(!new)>(f: T, x: T, y: T, max: nat) returns (t: State<T>)
    requires max >= 2
    ensures Reaches(Fresh(f, max), t) && t == Grown(f, x, y, max, 1, 0, PIdle(true), CReloadTail(1), 1, [x, y], [x])
  {
    var s := Fresh(f, max);
    t := Publishes(f, x, y, max);
    var was := t;
    hide Reaches;
    t := Go(s, t, Dequeue);
    t := Go(s, t, CStep);
    t := Go(s, t, CStep);
    t := Go(s, t, CStep);
    assert t.m.blocks == was.m.blocks;
    t := Go(s, t, CStep);
    t := Go(s, t, CStep);
  }

  /** looks again, */
  lemma MovesOn<T(!new)>(f: T, x: T, y: T, max: nat) returns (t: State<T>)
    requires max >= 2
    ensures Reaches(Fresh(f, max), t) && t == Grown(f, x, y, max, 1, 0, PIdle(true), CNextFront(0), 1, [x, y], [x])
  {
    var s := Fresh(f, max);
    t := LeavesAgain(f, x, y, max);
    var was := t;
    hide Reaches;
    t := Go(s, t, CStep);
    assert t.m.blocks == was.m.blocks;
    t := Go(s, t, CStep);
    t := Go(s, t, CStep);
  }

  /** and finds the next block empty, which the source asserts it is not. */
  lemma Fails<T(!new)>(f: T, x: T, y: T, max: nat) returns (t: State<T>)
    requires max >= 2
    ensures Reaches(Fresh(f, max), t) && t.failed
  {
    var s := Fresh(f, max);
    t := MovesOn(f, x, y, max);
    hide Reaches;
    t := Go(s, t, CStep);
    t := Go(s, t, CStep);
  }

  /** No run of a new queue fails an assertion or hands out anything but a prefix of what was put in. */
  ghost predicate AlwaysSafe<T(!new)>(size: nat, max: nat) {
    forall s: State<T>, t: State<T> :: IsNew(s, size, max) && Reaches(s, t) ==> !t.failed && t.deq <= t.enq
  }

  /** The queue is safe on every run exactly when it is built for at least one element. */
  lemma SafeIff<T(!new)>(size: nat, max: nat, any: T)
    requires max >= 2
    ensures AlwaysSafe<T>(size, max) <==> size >= 1
  {
    if size >= 1 {
      forall s: State<T>, t: State<T> | IsNew(s, size, max) && Reaches(s, t) ensures !t.failed && t.deq <= t.enq {
        var tr, acts :| IsRun(tr, acts) && tr[0] == s && tr[|acts|] == t;
        Fifo(tr, acts, size, max, |acts|);
      }
    } else {
      var t := Fails(any, any, any, max);
      assert IsNew(Fresh(any, max), 0, max);
    }
  }
}
