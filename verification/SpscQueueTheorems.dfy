/** What the queue promises over whole runs: every schedule of producer and consumer steps from a
    freshly constructed queue. */
module SpscQueueTheorems {

  import opened Wrappers
  import opened Bits
  import opened SpscQueue
  import opened SpscQueueProof

  // ---------- construction ----------

  function BlockSize(size: nat, maxBlock: nat): nat {
    if CeilPow2(size + 1) > 2 * maxBlock then maxBlock else CeilPow2(size + 1)
  }

  function BlockCount(size: nat, maxBlock: nat): nat
    requires maxBlock >= 2
  {
    if CeilPow2(size + 1) > 2 * maxBlock then (size + 2 * maxBlock - 3) / (maxBlock - 1) else 1
  }

  /** A new queue for `size` elements: empty blocks in a ring, whatever the slots contain. */
  ghost predicate IsNew<T>(s: State<T>, size: nat, maxBlock: nat) {
    && maxBlock >= 2 && s.maxBlock == maxBlock && s.largest == BlockSize(size, maxBlock)
    && |s.m.blocks| == BlockCount(size, maxBlock) && s.m.frontBlock == 0 == s.m.tailBlock
    && (forall i :: 0 <= i < |s.m.blocks| ==>
          var b := s.m.blocks[i];
          |b.data| == s.largest && b.front == b.tail == b.localFront == b.localTail == 0 && b.next == Bump(i, |s.m.blocks|))
    && s.p == PIdle(true) && s.c == CIdle(None) && s.enq == [] == s.deq && !s.failed
  }

  /** The extra block makes room: all blocks but one hold `size` elements. */
  lemma BlockCountSuffices(size: nat, maxBlock: nat)
    requires maxBlock >= 2 && CeilPow2(size + 1) > 2 * maxBlock
    ensures BlockCount(size, maxBlock) >= 2 && (BlockCount(size, maxBlock) - 1) * (maxBlock - 1) >= size
  {
    DivTwice(size + 2 * maxBlock - 3, maxBlock - 1);
  }

  lemma DivTwice(e: nat, d: nat)
    requires 1 <= d && 2 * d <= e
    ensures e / d >= 2 && (e / d - 1) * d > e - 2 * d
  {}

  /** The constructor's loop: each new block is linked behind the previous one and back to the
      first. */
  method Construct<T>(size: nat, maxBlock: nat, filler: T) returns (s: State<T>)
    requires maxBlock >= 2
    ensures IsNew(s, size, maxBlock)
  {
    var largest := CeilPow2(size + 1);
    var blocks: seq<Block<T>> := [];
    if largest > 2 * maxBlock {
      var count := (size + maxBlock * 2 - 3) / (maxBlock - 1);
      BlockCountSuffices(size, maxBlock);
      largest := maxBlock;
      var i := 0;
      while i != count
        invariant i <= count && |blocks| == i && largest == maxBlock
        invariant forall j :: 0 <= j < i ==>
          var b := blocks[j];
          |b.data| == largest && b.front == b.tail == b.localFront == b.localTail == 0 && b.next == Bump(j, i)
      {
        if i > 0 { blocks := blocks[i - 1 := blocks[i - 1].(next := i)]; }
        blocks := blocks + [Block(0, 0, 0, 0, 0, seq(largest, _ => filler))];
        i := i + 1;
      }
    } else {
      blocks := [Block(0, 0, 0, 0, 0, seq(largest, _ => filler))];
    }
    s := State(Mem(blocks, 0, 0), largest, maxBlock, PIdle(true), CIdle(None), [], [], false);
  }

  lemma NewBlockEmpty<T>(b: Block<T>)
    requires IndicesOk(b) && b.front == b.tail == b.localFront == b.localTail == 0 && |b.data| >= 2
    ensures Elems(b) == [] && Ordered(b)
  {}

  /** The view of blocks linked in the order they were made. */
  ghost function InOrder<T>(blocks: seq<Block<T>>): View<T>
  {
    var ring := seq(|blocks|, i => i);
    View(ring, map b | b in ring :: b, 0, blocks, seq(|blocks|, i => []))
  }

  lemma InOrderRep<T>(m: Mem<T>)
    requires |m.blocks| > 0 && m.frontBlock == 0 == m.tailBlock
    requires forall i :: 0 <= i < |m.blocks| ==> IndicesOk(m.blocks[i]) && m.blocks[i].next == Bump(i, |m.blocks|)
    ensures Rep(m, InOrder(m.blocks))
  {}

  lemma InOrderGood<T>(blocks: seq<Block<T>>)
    requires |blocks| > 0
    requires forall i :: 0 <= i < |blocks| ==> IndicesOk(blocks[i]) && Elems(blocks[i]) == [] && Ordered(blocks[i])
    ensures Good(InOrder(blocks), false) && Flatten(InOrder(blocks).el[..1]) == []
  {}

  lemma NewSizes(size: nat, maxBlock: nat)
    requires size >= 1 && maxBlock >= 2
    ensures BlockSize(size, maxBlock) >= 2 && BlockCount(size, maxBlock) >= 1
  {
    if CeilPow2(size + 1) > 2 * maxBlock { BlockCountSuffices(size, maxBlock); }
  }

  lemma NewQueueInv<T(!new)>(s: State<T>, size: nat, maxBlock: nat)
    requires IsNew(s, size, maxBlock) && size >= 1
    ensures Inv(s)
  {
    NewSizes(size, maxBlock);
    hide Elems, Ordered, Rep, Good, Flatten, InOrder, BlockSize, BlockCount, CeilPow2, Inv;
    forall i | 0 <= i < |s.m.blocks| ensures Elems(s.m.blocks[i]) == [] && Ordered(s.m.blocks[i]) {
      NewBlockEmpty(s.m.blocks[i]);
    }
    InOrderRep(s.m);
    InOrderGood(s.m.blocks);
    InOrderShape(s.m.blocks);
    InvHolds(s, InOrder(s.m.blocks));
  }

  lemma InvHolds<T(!new)>(s: State<T>, v: View<T>)
    requires InvAt(s, v)
    ensures Inv(s)
  {}

  lemma InOrderShape<T>(blocks: seq<Block<T>>)
    ensures var v := InOrder(blocks); v.k == 0 && |v.ring| == |v.bs| == |v.el| == |blocks|
  {}

  // ---------- runs ----------

  /** Starting a call changes nothing but the thread's program point. */
  lemma CallKeepsInv<T>(s: State<T>, v: View<T>, a: Action<T>)
    requires InvAt(s, v) && InRange(s) && (a.Enqueue? || a.Dequeue?)
    ensures InvAt(Next(s, a), v)
  {
    hide Rep, Good, Flatten;
  }

  lemma NextKeepsInv<T(!new)>(s: State<T>, a: Action<T>)
    requires Inv(s)
    ensures InRange(s) && Inv(Next(s, a))
  {
    hide InvAt, InRange, ProducerStep, ConsumerStep;
    var v :| InvAt(s, v);
    InvInRange(s, v);
    match a
    case PStep(raw) => var w := ProducerKeepsInv(s, v, raw);
    case CStep => var w := ConsumerKeepsInv(s, v);
    case _ => CallKeepsInv(s, v, a);
  }

  /** `tr` is what happens under the schedule `acts`. */
  ghost predicate IsRun<T>(tr: seq<State<T>>, acts: seq<Action<T>>) {
    |tr| == |acts| + 1 && forall i :: 0 <= i < |acts| ==> Moves(tr[i], acts[i], tr[i + 1])
  }

  ghost predicate Moves<T>(s: State<T>, a: Action<T>, s': State<T>) {
    InRange(s) && s' == Next(s, a)
  }

  /** Every schedule can be carried out from every state that satisfies the invariant. */
  lemma {:induction false} RunExists<T(!new)>(s: State<T>, acts: seq<Action<T>>) returns (tr: seq<State<T>>)
    requires Inv(s)
    ensures IsRun(tr, acts) && tr[0] == s && Inv(tr[|acts|])
    decreases |acts|
  {
    hide Inv;
    if acts == [] {
      tr := [s];
    } else {
      var pre, a := acts[..|acts| - 1], acts[|acts| - 1];
      var t := RunExists(s, pre);
      NextKeepsInv(t[|pre|], a);
      tr := t + [Next(t[|pre|], a)];
      RunSnoc(t, pre, a);
      assert acts == pre + [a] && tr[|acts|] == Next(t[|pre|], a);
    }
  }

  lemma RunSnoc<T>(tr: seq<State<T>>, acts: seq<Action<T>>, a: Action<T>)
    requires IsRun(tr, acts) && InRange(tr[|acts|])
    ensures IsRun(tr + [Next(tr[|acts|], a)], acts + [a])
  {}

  lemma {:induction false} InvAlong<T(!new)>(tr: seq<State<T>>, acts: seq<Action<T>>, j: nat)
    requires IsRun(tr, acts) && Inv(tr[0]) && j < |tr|
    ensures Inv(tr[j])
  {
    hide Inv, Next;
    if j > 0 {
      InvAlong(tr, acts, j - 1);
      assert Moves(tr[j - 1], acts[j - 1], tr[j]);
      NextKeepsInv(tr[j - 1], acts[j - 1]);
    }
  }

  /** Under every interleaving no assertion of the source fails and the elements dequeued so far
      are the first ones enqueued, in order. */
  lemma Fifo<T(!new)>(tr: seq<State<T>>, acts: seq<Action<T>>, size: nat, maxBlock: nat, j: nat)
    requires IsRun(tr, acts) && IsNew(tr[0], size, maxBlock) && size >= 1 && j < |tr|
    ensures !tr[j].failed && tr[j].deq <= tr[j].enq
  {
    NewQueueInv(tr[0], size, maxBlock);
    InvAlong(tr, acts, j);
    var v :| InvAt(tr[j], v);
  }

  // ---------- what one step can change ----------

  lemma ProducerStepFrame<T>(s: State<T>, raw: seq<T>)
    requires InRange(s)
    ensures var r := ProducerStep(s, raw);
      r.c == s.c && r.deq == s.deq && r.m.frontBlock == s.m.frontBlock
      && r.m.tailBlock == (if s.p.PPublish? then s.p.tn else s.m.tailBlock)
  {}

  lemma ConsumerStepFrame<T>(s: State<T>)
    requires InRange(s)
    ensures var r := ConsumerStep(s);
      r.p == s.p && r.enq == s.enq && r.m.tailBlock == s.m.tailBlock
      && r.m.frontBlock == (if s.c.CStoreFrontBlock? then s.c.nb else s.m.frontBlock)
  {}

  // ---------- a call takes effect once ----------

  /** A producer step keeps the element of its call; it commits it, and returns true, in one step only. */
  lemma ProducerCommitsOnce<T>(s: State<T>, raw: seq<T>)
    requires InRange(s) && !s.p.PIdle?
    ensures var r := ProducerStep(s, raw);
      if s.p.PStoreTail? || s.p.PPublish? then r.p == PIdle(true) && r.enq == s.enq + [s.p.x]
      else r.enq == s.enq && (r.p.PIdle? ==> !r.p.ok) && (!r.p.PIdle? ==> r.p.x == s.p.x)
  {
    hide InRange;
  }

  lemma ConsumerTakesOnce<T>(s: State<T>)
    requires InRange(s) && !s.c.CIdle?
    ensures var r := ConsumerStep(s);
      if s.c.CStoreFront? then r.c == CIdle(Some(s.c.x)) && r.deq == s.deq + [s.c.x]
      else r.deq == s.deq && (r.c.CIdle? ==> r.c.got == None)
  {
    hide InRange;
  }

  /** Inside the call started at `i`, up to `j`. */
  lemma {:induction false} InsideEnqueue<T(!new)>(tr: seq<State<T>>, acts: seq<Action<T>>, i: nat, j: nat, x: T, mode: Mode)
    requires IsRun(tr, acts) && i < j < |tr| && tr[i].p.PIdle? && !tr[i].failed && acts[i] == Enqueue(x, mode)
    requires forall m :: i < m <= j ==> !tr[m].p.PIdle?
    ensures tr[j].enq == tr[i].enq && tr[j].p.x == x
  {
    assert Moves(tr[j - 1], acts[j - 1], tr[j]);
    if i + 1 < j {
      InsideEnqueue(tr, acts, i, j - 1, x, mode);
      if acts[j - 1].PStep? { ProducerCommitsOnce(tr[j - 1], acts[j - 1].raw); }
      if acts[j - 1].CStep? { ConsumerStepFrame(tr[j - 1]); }
      hide ProducerStep, ConsumerStep, InRange;
    }
  }

  /** An enqueue that returns at `j` has added its element exactly once if it returns true, and nothing
      otherwise, whatever the consumer did meanwhile. */
  lemma EnqueueOnce<T(!new)>(tr: seq<State<T>>, acts: seq<Action<T>>, i: nat, j: nat, x: T, mode: Mode)
    requires IsRun(tr, acts) && i + 1 < j < |tr| && tr[i].p.PIdle? && !tr[i].failed && acts[i] == Enqueue(x, mode)
    requires tr[j].p.PIdle? && forall m :: i < m < j ==> !tr[m].p.PIdle?
    ensures tr[j].enq == tr[i].enq + if tr[j].p.ok then [x] else []
  {
    InsideEnqueue(tr, acts, i, j - 1, x, mode);
    assert Moves(tr[j - 1], acts[j - 1], tr[j]);
    if acts[j - 1].PStep? { ProducerCommitsOnce(tr[j - 1], acts[j - 1].raw); }
    if acts[j - 1].CStep? { ConsumerStepFrame(tr[j - 1]); }
    hide ProducerStep, ConsumerStep, InRange;
  }

  lemma {:induction false} InsideDequeue<T(!new)>(tr: seq<State<T>>, acts: seq<Action<T>>, i: nat, j: nat)
    requires IsRun(tr, acts) && i < j < |tr| && tr[i].c.CIdle? && !tr[i].failed && acts[i] == Dequeue
    requires forall m :: i < m <= j ==> !tr[m].c.CIdle?
    ensures tr[j].deq == tr[i].deq
  {
    assert Moves(tr[j - 1], acts[j - 1], tr[j]);
    if i + 1 < j {
      InsideDequeue(tr, acts, i, j - 1);
      if acts[j - 1].PStep? { ProducerStepFrame(tr[j - 1], acts[j - 1].raw); }
      if acts[j - 1].CStep? { ConsumerTakesOnce(tr[j - 1]); }
      hide ProducerStep, ConsumerStep, InRange;
    }
  }

  /** A dequeue that returns an element has taken exactly it, and it is the oldest one not yet taken; one
      that returns false has taken nothing. */
  lemma DequeueOnce<T(!new)>(tr: seq<State<T>>, acts: seq<Action<T>>, size: nat, maxBlock: nat, i: nat, j: nat)
    requires IsRun(tr, acts) && IsNew(tr[0], size, maxBlock) && size >= 1
    requires i + 1 < j < |tr| && tr[i].c.CIdle? && acts[i] == Dequeue
    requires tr[j].c.CIdle? && forall m :: i < m < j ==> !tr[m].c.CIdle?
    ensures match tr[j].c.got
      case Some(y) => tr[j].deq == tr[i].deq + [y] && |tr[i].deq| < |tr[j].enq| && y == tr[j].enq[|tr[i].deq|]
      case None => tr[j].deq == tr[i].deq
  {
    Fifo(tr, acts, size, maxBlock, i);
    Fifo(tr, acts, size, maxBlock, j);
    InsideDequeue(tr, acts, i, j - 1);
    assert Moves(tr[j - 1], acts[j - 1], tr[j]);
    if acts[j - 1].PStep? { ProducerStepFrame(tr[j - 1], acts[j - 1].raw); }
    if acts[j - 1].CStep? { ConsumerTakesOnce(tr[j - 1]); }
    hide ProducerStep, ConsumerStep, InRange;
  }

  // ---------- a refused dequeue ----------

  /** From moment `n` to moment `j` the consumer is inside one call. */
  ghost predicate ConsumerBusy<T>(tr: seq<State<T>>, n: nat, j: nat)
    requires j < |tr|
  {
    n <= j && forall i :: n <= i <= j ==> !tr[i].c.CIdle?
  }

  /** During the call under way at moment `j` there was a moment with nothing in the queue. */
  ghost predicate WasEmptyInCall<T>(tr: seq<State<T>>, j: nat)
    requires j < |tr|
  {
    exists n: nat :: ConsumerBusy(tr, n, j) && tr[n].enq == tr[n].deq
  }

  /** Having found the front block empty, the consumer is either past an empty moment of the queue
      or has another block ahead. */
  lemma {:induction false} EmptyMoment<T(!new)>(tr: seq<State<T>>, acts: seq<Action<T>>, j: nat)
    requires IsRun(tr, acts) && Inv(tr[0]) && tr[0].c.CIdle? && j < |tr| && tr[j].c.CLoadTailBlock?
    ensures tr[j].m.tailBlock != tr[j].m.frontBlock || WasEmptyInCall(tr, j)
  {
    hide Inv;
    var q, a := tr[j - 1], acts[j - 1];
    assert Moves(q, a, tr[j]);
    InvAlong(tr, acts, j - 1);
    if q.c.CLoadTailBlock? {
      EmptyMoment(tr, acts, j - 1);
      if q.m.tailBlock != q.m.frontBlock {
        AheadStays(q, a);
      } else {
        StillInCall(tr, j);
      }
    } else {
      EmptyFrontBlock(q, a);
      assert ConsumerBusy(tr, j - 1, j);
    }
  }

  lemma StillInCall<T>(tr: seq<State<T>>, j: nat)
    requires 0 < j < |tr| && WasEmptyInCall(tr, j - 1) && !tr[j].c.CIdle?
    ensures WasEmptyInCall(tr, j)
  {}

  /** While the consumer waits to look at the tail block, a tail ahead of it stays ahead. */
  lemma AheadStays<T(!new)>(q: State<T>, a: Action<T>)
    requires Inv(q) && InRange(q) && q.c.CLoadTailBlock? && q.m.tailBlock != q.m.frontBlock
    requires Next(q, a).c.CLoadTailBlock?
    ensures Next(q, a).m.tailBlock != Next(q, a).m.frontBlock
  {
    var v :| InvAt(q, v);
    if a.PStep? {
      ProducerStepFrame(q, a.raw);
      if q.p.PPublish? { assert v.pos[v.ring[v.k + 1]] == v.k + 1 && v.pos[v.ring[0]] == 0; }
    }
  }

  lemma EmptyFrontBlock<T(!new)>(q: State<T>, a: Action<T>)
    requires Inv(q) && InRange(q) && !q.c.CLoadTailBlock? && Next(q, a).c.CLoadTailBlock?
    ensures q.c.CLoadTail? && Next(q, a).m.tailBlock == q.m.tailBlock && Next(q, a).m.frontBlock == q.m.frontBlock
    ensures q.m.tailBlock == q.m.frontBlock ==> q.enq == q.deq
  {
    hide ProducerStep;
    if a.PStep? { ProducerStepFrame(q, a.raw); }
    assert a == CStep && q.c.CLoadTail?;
    if q.m.tailBlock == q.m.frontBlock { EmptyQueue(q); }
  }

  lemma EmptyQueue<T(!new)>(q: State<T>)
    requires Inv(q) && InRange(q) && q.m.tailBlock == q.m.frontBlock
    requires q.m.blocks[q.m.frontBlock].front == q.m.blocks[q.m.frontBlock].tail
    ensures q.enq == q.deq
  {
    var v :| InvAt(q, v);
    assert v.pos[v.ring[v.k]] == v.k && v.pos[v.ring[0]] == 0;
    assert |Elems(v.bs[0])| == |v.el[0]| == 0;
    assert v.el[..1][..0] == [];
    assert Flatten(v.el[..1]) == v.el[0];
  }

  /** `try_dequeue` returns false only if the queue was empty at some moment during the call. */
  lemma RefusedDequeue<T(!new)>(tr: seq<State<T>>, acts: seq<Action<T>>, size: nat, maxBlock: nat, j: nat)
    requires IsRun(tr, acts) && IsNew(tr[0], size, maxBlock) && size >= 1 && j < |acts|
    requires !tr[j].c.CIdle? && tr[j + 1].c == CIdle(None)
    ensures WasEmptyInCall(tr, j)
  {
    NewQueueInv(tr[0], size, maxBlock);
    InvAlong(tr, acts, j);
    NewIsIdle(tr[0], size, maxBlock);
    hide Inv, IsNew, InRange, Next;
    MovesAt(tr, acts, j);
    RefusesAtTail(tr[j], acts[j]);
    EmptyMoment(tr, acts, j);
  }

  lemma NewIsIdle<T>(s: State<T>, size: nat, maxBlock: nat)
    requires IsNew(s, size, maxBlock)
    ensures s.c.CIdle? && s.p.PIdle?
  {}

  /** The consumer returns false only where it finds no block behind the front one. */
  lemma RefusesAtTail<T(!new)>(q: State<T>, a: Action<T>)
    requires Inv(q) && InRange(q) && !q.c.CIdle? && Next(q, a).c == CIdle(None)
    ensures q.c.CLoadTailBlock? && q.m.tailBlock == q.m.frontBlock
  {
    if a.PStep? { ProducerStepFrame(q, a.raw); }
    hide ProducerStep;
    var v :| InvAt(q, v);
  }

  // ---------- a refused enqueue ----------

  function Times(n: nat, c: nat): nat { n * c }

  lemma TimesGrows(n: nat, m: nat, c: nat)
    requires n <= m
    ensures Times(n, c) <= Times(m, c) && (n > 0 ==> c <= Times(n, c))
  {}

  /** The blocks have kept the room the queue was built with: each has `least` slots or more, and
      either one block is enough for `size` elements or all but one of them are. */
  ghost predicate Roomy<T>(s: State<T>, size: nat, least: nat) {
    && least >= 2 && s.largest >= least && s.maxBlock >= 2
    && (forall i :: 0 <= i < |s.m.blocks| ==> |s.m.blocks[i].data| >= least)
    && (s.p.PLinkNew? || s.p.PStoreNext? ==> |s.p.newBlock.data| >= least)
    && (least > size || (|s.m.blocks| >= 2 && Times(|s.m.blocks| - 1, least - 1) >= size))
  }

  lemma NewQueueRoomy<T>(s: State<T>, size: nat, maxBlock: nat)
    requires IsNew(s, size, maxBlock) && size >= 1
    ensures Roomy(s, size, BlockSize(size, maxBlock))
  {
    if CeilPow2(size + 1) > 2 * maxBlock { BlockCountSuffices(size, maxBlock); }
  }

  /** Blocks keep their sizes; the only new one is the producer's. */
  lemma ProducerSizes<T>(s: State<T>, raw: seq<T>)
    requires InRange(s)
    ensures var r := ProducerStep(s, raw);
      && |s.m.blocks| <= |r.m.blocks|
      && (forall i :: 0 <= i < |s.m.blocks| ==> |r.m.blocks[i].data| == |s.m.blocks[i].data|)
      && (forall i :: |s.m.blocks| <= i < |r.m.blocks| ==> s.p.PStoreNext? && r.m.blocks[i] == s.p.newBlock)
  {
    hide MemInRange, CInRange, Bump, IndicesOk, NewBlockSize;
  }

  /** What a producer step allocates or carries has one of two sizes. */
  lemma ProducerNewBlock<T>(s: State<T>, raw: seq<T>)
    requires InRange(s)
    ensures var r := ProducerStep(s, raw);
      && r.maxBlock == s.maxBlock && (r.largest == s.largest || r.largest == NewBlockSize(s))
      && (r.p.PLinkNew? || r.p.PStoreNext? ==>
            || |r.p.newBlock.data| == NewBlockSize(s)
            || ((s.p.PLinkNew? || s.p.PStoreNext?) && |r.p.newBlock.data| == |s.p.newBlock.data|))
  {
    hide MemInRange, PInRange, CInRange, Bump, IndicesOk, SetBlock;
  }

  lemma ProducerKeepsRoom<T>(s: State<T>, raw: seq<T>, size: nat, least: nat)
    requires InRange(s) && Roomy(s, size, least)
    ensures Roomy(ProducerStep(s, raw), size, least)
  {
    ProducerSizes(s, raw);
    ProducerNewBlock(s, raw);
    hide Times, InRange, ProducerStep;
    var r := ProducerStep(s, raw);
    TimesGrows(|s.m.blocks| - 1, |r.m.blocks| - 1, least - 1);
    forall i | 0 <= i < |r.m.blocks| ensures |r.m.blocks[i].data| >= least {
      if i >= |s.m.blocks| { assert r.m.blocks[i] == s.p.newBlock; }
    }
  }

  lemma ConsumerSizes<T>(s: State<T>)
    requires InRange(s)
    ensures var r := ConsumerStep(s);
      && |r.m.blocks| == |s.m.blocks| && r.largest == s.largest && r.maxBlock == s.maxBlock && r.p == s.p
      && (forall i :: 0 <= i < |s.m.blocks| ==> |r.m.blocks[i].data| == |s.m.blocks[i].data|)
  {
    hide MemInRange, PInRange, Bump, IndicesOk;
  }

  lemma ConsumerKeepsRoom<T>(s: State<T>, size: nat, least: nat)
    requires InRange(s) && Roomy(s, size, least)
    ensures Roomy(ConsumerStep(s), size, least)
  {
    ConsumerSizes(s);
    hide ConsumerStep, InRange, Times;
  }

  lemma {:induction false} RoomyAlong<T>(tr: seq<State<T>>, acts: seq<Action<T>>, size: nat, least: nat, j: nat)
    requires IsRun(tr, acts) && Roomy(tr[0], size, least) && j < |tr|
    ensures Roomy(tr[j], size, least)
  {
    if j > 0 {
      RoomyAlong(tr, acts, size, least, j - 1);
      assert Moves(tr[j - 1], acts[j - 1], tr[j]);
      match acts[j - 1]
      case Enqueue(_, _) =>
      case PStep(raw) => ProducerKeepsRoom(tr[j - 1], raw, size, least);
      case Dequeue =>
      case CStep => ConsumerKeepsRoom(tr[j - 1], size, least);
    }
  }

  ghost predicate ProducerBusy<T>(tr: seq<State<T>>, n: nat, j: nat)
    requires j < |tr|
  {
    n <= j && forall i :: n <= i <= j ==> !tr[i].p.PIdle?
  }

  /** During the call under way at moment `j` there was a moment with `size` elements outstanding. */
  ghost predicate HeldSizeInCall<T>(tr: seq<State<T>>, size: nat, j: nat)
    requires j < |tr|
  {
    exists n: nat :: ProducerBusy(tr, n, j) && |tr[n].enq| >= |tr[n].deq| + size
  }

  lemma {:induction false} FlattenLength<T>(xs: seq<seq<T>>, c: nat)
    requires xs != [] && forall i :: 0 < i < |xs| ==> |xs[i]| >= c
    ensures |Flatten(xs)| >= Times(|xs| - 1, c)
  {
    if |xs| > 1 {
      FlattenLength(xs[..|xs| - 1], c);
      assert (|xs| - 1) * c == (|xs| - 2) * c + c;
    }
  }

  /** With several blocks, a tail block that is full and links to the front block means that all
      blocks but the front one are full. */
  lemma AllButOneFull<T(!new)>(q: State<T>, size: nat, least: nat)
    requires Inv(q) && Roomy(q, size, least) && |q.m.blocks| >= 2
    requires q.p.PLoadFrontBlock? && q.p.nx == q.m.frontBlock
    ensures |q.enq| >= |q.deq| + size
  {
    hide Flatten;
    hide Times;
    hide Elems;
    var v :| InvAt(q, v);
    NextIsFree(v);
    assert v.pos[v.ring[0]] == 0;
    assert v.k == |v.ring| - 1;
    forall i | 0 < i < |v.el| ensures |v.el[i]| >= least - 1 { assert q.m.blocks[v.ring[i]] == v.bs[i]; }
    assert v.el[..v.k + 1] == v.el;
    FlattenLength(v.el, least - 1);
    TimesGrows(|v.el| - 1, |v.el| - 1, least - 1);
  }

  /** With one block, finding it full means that all its room is taken. */
  lemma OneBlockFull<T(!new)>(q: State<T>, a: Action<T>, size: nat, least: nat)
    requires Inv(q) && InRange(q) && Roomy(q, size, least) && |q.m.blocks| == 1
    requires !q.p.PLoadNext? && Next(q, a).p.PLoadNext?
    ensures q.p.PLoadFront? && |q.enq| >= |q.deq| + size
  {}

  lemma {:induction false} FullMoment<T(!new)>(tr: seq<State<T>>, acts: seq<Action<T>>, size: nat, least: nat, j: nat)
    requires IsRun(tr, acts) && Inv(tr[0]) && tr[0].p.PIdle? && Roomy(tr[0], size, least)
    requires j < |tr| && (tr[j].p.PLoadNext? || tr[j].p.PLoadFrontBlock?)
    ensures |tr[j].m.blocks| >= 2 || HeldSizeInCall(tr, size, j)
  {
    hide Inv;
    var q, a := tr[j - 1], acts[j - 1];
    assert Moves(q, a, tr[j]);
    InvAlong(tr, acts, j - 1);
    RoomyAlong(tr, acts, size, least, j - 1);
    BlockCountGrows(q, a);
    if q.p.PLoadNext? || q.p.PLoadFrontBlock? {
      FullMoment(tr, acts, size, least, j - 1);
      if HeldSizeInCall(tr, size, j - 1) {
        var n: nat :| ProducerBusy(tr, n, j - 1) && |tr[n].enq| >= |tr[n].deq| + size;
        assert ProducerBusy(tr, n, j);
      }
    } else if |q.m.blocks| == 1 {
      ReachesLoadNext(q, a);
      OneBlockFull(q, a, size, least);
      assert ProducerBusy(tr, j - 1, j);
    }
  }

  lemma BlockCountGrows<T>(q: State<T>, a: Action<T>)
    requires InRange(q)
    ensures |Next(q, a).m.blocks| >= |q.m.blocks| >= 1
  {}

  lemma ReachesLoadNext<T>(q: State<T>, a: Action<T>)
    requires InRange(q) && !q.p.PLoadNext? && !q.p.PLoadFrontBlock?
    ensures !Next(q, a).p.PLoadFrontBlock?
  {}

  /** Finding no free block means that `size` elements were outstanding at some moment of the call. */
  lemma NoFreeBlock<T(!new)>(tr: seq<State<T>>, acts: seq<Action<T>>, size: nat, maxBlock: nat, j: nat)
    requires IsRun(tr, acts) && IsNew(tr[0], size, maxBlock) && size >= 1 && j < |acts|
    requires tr[j].p.PLoadFrontBlock? && (tr[j + 1].p == PIdle(false) || tr[j + 1].p.PAlloc?)
    ensures HeldSizeInCall(tr, size, j)
  {
    hide Inv;
    var least := BlockSize(size, maxBlock);
    NewQueueInv(tr[0], size, maxBlock);
    NewQueueRoomy(tr[0], size, maxBlock);
    InvAlong(tr, acts, j);
    RoomyAlong(tr, acts, size, least, j);
    assert Moves(tr[j], acts[j], tr[j + 1]);
    if acts[j].CStep? { ConsumerStepFrame(tr[j]); }
    if |tr[j].m.blocks| >= 2 {
      AllButOneFull(tr[j], size, least);
      assert ProducerBusy(tr, j, j);
    } else {
      FullMoment(tr, acts, size, least, j);
    }
  }

  lemma StillEnqueuing<T>(tr: seq<State<T>>, size: nat, j: nat)
    requires 0 < j < |tr| && HeldSizeInCall(tr, size, j - 1) && !tr[j].p.PIdle?
    ensures HeldSizeInCall(tr, size, j)
  {
    var n: nat :| ProducerBusy(tr, n, j - 1) && |tr[n].enq| >= |tr[n].deq| + size;
    assert ProducerBusy(tr, n, j);
  }

  /** A block is allocated only when the queue was full in the same sense. */
  lemma {:induction false} AllocatesWhenFull<T(!new)>(tr: seq<State<T>>, acts: seq<Action<T>>, size: nat, maxBlock: nat, j: nat)
    requires IsRun(tr, acts) && IsNew(tr[0], size, maxBlock) && size >= 1 && j < |tr| && tr[j].p.PAlloc?
    ensures HeldSizeInCall(tr, size, j)
  {
    assert Moves(tr[j - 1], acts[j - 1], tr[j]);
    ComesToAlloc(tr[j - 1], acts[j - 1]);
    hide Next, InRange, IsNew;
    if tr[j - 1].p.PAlloc? {
      AllocatesWhenFull(tr, acts, size, maxBlock, j - 1);
    } else {
      NoFreeBlock(tr, acts, size, maxBlock, j - 1);
    }
    StillEnqueuing(tr, size, j);
  }

  lemma ComesToAlloc<T>(q: State<T>, a: Action<T>)
    requires InRange(q) && Next(q, a).p.PAlloc?
    ensures q.p.PAlloc? || q.p.PLoadFrontBlock?
  {
    hide InRange;
    if a.CStep? { ConsumerStepFrame(q); }
  }

  /** What the producer's program point says about the mode of its call. */
  predicate OfMode<T>(p: Producer<T>, mode: Mode) {
    match p
    case PLoadTailBlock(_, m) => m == mode
    case PLoadTail(_, m, _) => m == mode
    case PLoadFront(_, m, _, _) => m == mode
    case PLoadNext(_, m, _) => m == mode
    case PLoadFrontBlock(_, m, _, _) => m == mode
    case PAlloc(_, _) => mode.CanAlloc?
    case _ => true
  }

  /** Only two steps of an enqueue return false: the one that finds no free block and may not allocate, and
      the one that does not get a block of twice the largest size, or of that size from `maxBlock` on. */
  lemma ProducerRefuses<T>(s: State<T>, raw: seq<T>, mode: Mode)
    requires InRange(s) && !s.p.PIdle? && OfMode(s.p, mode)
    ensures var r := ProducerStep(s, raw);
      && (!r.p.PIdle? ==> OfMode(r.p, mode))
      && (r.p == PIdle(false) ==>
            || (s.p.PLoadFrontBlock? && mode.CannotAlloc?)
            || (s.p.PAlloc? && |raw| != if s.largest >= s.maxBlock then s.largest else 2 * s.largest))
  {
    hide InRange;
  }

  lemma {:induction false} InsideMode<T(!new)>(tr: seq<State<T>>, acts: seq<Action<T>>, i: nat, j: nat, x: T, mode: Mode)
    requires IsRun(tr, acts) && i < j < |tr| && tr[i].p.PIdle? && !tr[i].failed && acts[i] == Enqueue(x, mode)
    requires forall m :: i < m <= j ==> !tr[m].p.PIdle?
    ensures OfMode(tr[j].p, mode)
  {
    assert Moves(tr[j - 1], acts[j - 1], tr[j]);
    if i + 1 < j {
      InsideMode(tr, acts, i, j - 1, x, mode);
      if acts[j - 1].PStep? { ProducerRefuses(tr[j - 1], acts[j - 1].raw, mode); }
      if acts[j - 1].CStep? { ConsumerStepFrame(tr[j - 1]); }
      hide ProducerStep, ConsumerStep, InRange, OfMode;
    }
  }

  lemma {:induction false} MaxBlockStays<T>(tr: seq<State<T>>, acts: seq<Action<T>>, j: nat)
    requires IsRun(tr, acts) && j < |tr|
    ensures tr[j].maxBlock == tr[0].maxBlock
  {
    if j > 0 {
      MaxBlockStays(tr, acts, j - 1);
      assert Moves(tr[j - 1], acts[j - 1], tr[j]);
      if acts[j - 1].PStep? { ProducerNewBlock(tr[j - 1], acts[j - 1].raw); }
      if acts[j - 1].CStep? { ConsumerSizes(tr[j - 1]); }
      hide ProducerStep, ConsumerStep, InRange;
    }
  }

  /** An enqueue returns false only if `size` elements were outstanding at some moment during the call, whatever
      the consumer did meanwhile; and one that may allocate only if, besides, it did not get the memory it asked
      for: a block twice as large as the largest so far, or as large once that has reached `maxBlock`. */
  lemma RefusedEnqueue<T(!new)>(tr: seq<State<T>>, acts: seq<Action<T>>, size: nat, maxBlock: nat, i: nat, j: nat, x: T, mode: Mode)
    requires IsRun(tr, acts) && IsNew(tr[0], size, maxBlock) && size >= 1
    requires i < j < |acts| && tr[i].p.PIdle? && acts[i] == Enqueue(x, mode)
    requires tr[j + 1].p == PIdle(false) && forall m :: i < m <= j ==> !tr[m].p.PIdle?
    ensures HeldSizeInCall(tr, size, j)
    ensures mode.CanAlloc? ==>
      acts[j].PStep? && |acts[j].raw| != if tr[j].largest >= maxBlock then tr[j].largest else 2 * tr[j].largest
  {
    Fifo(tr, acts, size, maxBlock, i);
    Fifo(tr, acts, size, maxBlock, j);
    MaxBlockStays(tr, acts, j);
    InsideMode(tr, acts, i, j, x, mode);
    assert Moves(tr[j], acts[j], tr[j + 1]);
    if acts[j].PStep? { ProducerRefuses(tr[j], acts[j].raw, mode); }
    if acts[j].CStep? { ConsumerStepFrame(tr[j]); }
    hide ProducerStep, ConsumerStep, InRange;
    if tr[j].p.PAlloc? { AllocatesWhenFull(tr, acts, size, maxBlock, j); } else { NoFreeBlock(tr, acts, size, maxBlock, j); }
  }

  // ---------- every call ends ----------

  /** How many more steps of its own an enqueue can take. */
  function PRank<T>(p: Producer<T>): nat {
    match p
    case PIdle(_) => 0
    case PStoreTail(_, _, _) => 1
    case PPublish(_, _) => 1
    case PWrite(_, _, _) => 2
    case PStoreNext(_, _, _) => 2
    case PNextStoreTail(_, _, _) => 2
    case PLinkNew(_, _, _) => 3
    case PNextWrite(_, _, _) => 3
    case PAlloc(_, _) => 4
    case PNextTail(_, _, _) => 4
    case PNextFront(_, _) => 5
    case PReloadNext(_, _) => 6
    case PLoadFrontBlock(_, _, _, _) => 7
    case PLoadNext(_, _, _) => 8
    case PLoadFront(_, _, _, _) => 9
    case PLoadTail(_, _, _) => 10
    case PLoadTailBlock(_, _) => 11
  }

  function CRank<T>(c: Consumer<T>): nat {
    match c
    case CIdle(_) => 0
    case CStoreFront(_, _, _) => 1
    case CRead(_, _) => 2
    case CStoreFrontBlock(_, _) => 3
    case CNextTail(_, _) => 4
    case CNextFront(_) => 5
    case CLoadNext(_) => 6
    case CReloadFront(_, _) => 7
    case CReloadTail(_) => 8
    case CReloadFrontBlock => 9
    case CLoadTailBlock(_) => 10
    case CLoadTail(_, _) => 11
    case CLoadFront(_) => 12
    case CLoadFrontBlock => 13
  }

  lemma ProducerAdvances<T>(s: State<T>, raw: seq<T>)
    requires InRange(s) && !s.p.PIdle? && !ProducerStep(s, raw).failed
    ensures PRank(ProducerStep(s, raw).p) < PRank(s.p)
  {
    hide InRange;
  }

  lemma ConsumerAdvances<T>(s: State<T>)
    requires InRange(s) && !s.c.CIdle? && !ConsumerStep(s).failed
    ensures CRank(ConsumerStep(s).c) < CRank(s.c)
  {
    hide InRange;
  }

  lemma RanksFall<T>(q: State<T>, a: Action<T>)
    requires InRange(q) && !q.failed && !Next(q, a).failed
    ensures !q.p.PIdle? ==> PRank(Next(q, a).p) + (if a.PStep? then 1 else 0) <= PRank(q.p)
    ensures !q.c.CIdle? ==> CRank(Next(q, a).c) + (if a.CStep? then 1 else 0) <= CRank(q.c)
  {
    match a
    case PStep(raw) =>
      if !q.p.PIdle? { ProducerAdvances(q, raw); }
      ProducerStepFrame(q, raw);
    case CStep =>
      if !q.c.CIdle? { ConsumerAdvances(q); }
      ConsumerStepFrame(q);
    case _ =>
    hide InRange, PRank, CRank, ProducerStep, ConsumerStep;
  }

  /** How many of the actions from `a` up to `b` are steps of the producer. */
  function PSteps<T>(acts: seq<Action<T>>, a: nat, b: nat): nat
    requires a <= b <= |acts|
  {
    if a == b then 0 else PSteps(acts, a, b - 1) + (if acts[b - 1].PStep? then 1 else 0)
  }

  function CSteps<T>(acts: seq<Action<T>>, a: nat, b: nat): nat
    requires a <= b <= |acts|
  {
    if a == b then 0 else CSteps(acts, a, b - 1) + (if acts[b - 1].CStep? then 1 else 0)
  }

  lemma StepsSnoc<T>(acts: seq<Action<T>>, a: nat, b: nat)
    requires a <= b < |acts|
    ensures PSteps(acts, a, b + 1) == PSteps(acts, a, b) + (if acts[b].PStep? then 1 else 0)
    ensures CSteps(acts, a, b + 1) == CSteps(acts, a, b) + (if acts[b].CStep? then 1 else 0)
  {}

  lemma MovesAt<T>(tr: seq<State<T>>, acts: seq<Action<T>>, j: nat)
    requires IsRun(tr, acts) && j < |acts|
    ensures j + 1 < |tr| && InRange(tr[j]) && tr[j + 1] == Next(tr[j], acts[j])
  {
    hide InRange, Next;
    assert Moves(tr[j], acts[j], tr[j + 1]);
  }

  lemma CallStarts<T>(q: State<T>, a: Action<T>)
    requires InRange(q) && !q.failed
    ensures q.p.PIdle? && a.Enqueue? ==> !Next(q, a).p.PIdle? && PRank(Next(q, a).p) == 11
    ensures q.c.CIdle? && a.Dequeue? ==> !Next(q, a).c.CIdle? && CRank(Next(q, a).c) == 13
  {
    hide InRange;
  }

  /** The queue is wait-free: an enqueue starts at once and is over after at most eleven steps of its own, whatever the
      consumer does. */
  lemma {:induction false} EnqueueIsWaitFree<T(!new)>(tr: seq<State<T>>, acts: seq<Action<T>>, size: nat, maxBlock: nat,
                                                      i: nat, j: nat, x: T, mode: Mode)
    requires IsRun(tr, acts) && IsNew(tr[0], size, maxBlock) && size >= 1
    requires i < j < |tr| == |acts| + 1 && tr[i].p.PIdle? && acts[i] == Enqueue(x, mode)
    requires forall m :: i < m < j ==> !tr[m].p.PIdle?
    ensures !tr[i + 1].p.PIdle? && PSteps(acts, i + 1, j) + PRank(tr[j].p) <= 11
  {
    hide *;
    Fifo(tr, acts, size, maxBlock, j - 1);
    Fifo(tr, acts, size, maxBlock, j);
    MovesAt(tr, acts, j - 1);
    if i + 1 < j {
      StepsSnoc(acts, i + 1, j - 1);
      EnqueueIsWaitFree(tr, acts, size, maxBlock, i, j - 1, x, mode);
      RanksFall(tr[j - 1], acts[j - 1]);
    } else {
      NoSteps(acts, j);
      CallStarts(tr[i], acts[i]);
    }
  }

  lemma NoSteps<T>(acts: seq<Action<T>>, a: nat)
    requires a <= |acts|
    ensures PSteps(acts, a, a) == 0 == CSteps(acts, a, a)
  {}

  /** So is a dequeue, after at most thirteen. */
  lemma {:induction false} DequeueIsWaitFree<T(!new)>(tr: seq<State<T>>, acts: seq<Action<T>>, size: nat, maxBlock: nat,
                                                      i: nat, j: nat)
    requires IsRun(tr, acts) && IsNew(tr[0], size, maxBlock) && size >= 1
    requires i < j < |tr| == |acts| + 1 && tr[i].c.CIdle? && acts[i] == Dequeue
    requires forall m :: i < m < j ==> !tr[m].c.CIdle?
    ensures !tr[i + 1].c.CIdle? && CSteps(acts, i + 1, j) + CRank(tr[j].c) <= 13
  {
    hide *;
    Fifo(tr, acts, size, maxBlock, j - 1);
    Fifo(tr, acts, size, maxBlock, j);
    MovesAt(tr, acts, j - 1);
    if i + 1 < j {
      StepsSnoc(acts, i + 1, j - 1);
      DequeueIsWaitFree(tr, acts, size, maxBlock, i, j - 1);
      RanksFall(tr[j - 1], acts[j - 1]);
    } else {
      NoSteps(acts, j);
      CallStarts(tr[i], acts[i]);
    }
  }
}
