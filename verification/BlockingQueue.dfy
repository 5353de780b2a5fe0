/** The blocking queue: the machine of SpscQueue with the counting semaphore of
    src/queue/atomicops.hpp on top.  The producer thread enqueues and then signals; the consumer
    thread waits, possibly with a timeout, and then dequeues.  One atomic access is one step. */
module BlockingQueue {

  import opened Wrappers
  import Q = SpscQueue
  import SpscQueueProof
  import T = SpscQueueTheorems

  /** The producer thread: inside the inner enqueue, about to bump the count, about to post the
      kernel semaphore. */
  datatype Signaller = SIdle | SEnqueuing | SSignal | SPost

  /** The consumer thread.  A negative timeout waits for ever, zero does not wait in the kernel. */
  datatype Waiter<E> =
    | WIdle(got: Option<E>)
    | WTryLoad(spin: bool, timeout: int)
    | WTake
    | WSpinLoad(left: nat, timeout: int)
    | WDecrement(timeout: int)
    | WKernel
    | WRestore
    | WRetake
    | WKernelTry
    | WDequeue

  datatype State<E> = State(
    q: Q.State<E>, count: int, kernel: nat, s: Signaller, w: Waiter<E>,
    signals: nat, taken: nat, failed: bool)

  /** `Consumer(wake)`: when the step is a kernel wait, `wake` tells whether it ends with a permit
      (if there is one) or with a timeout or an error. */
  datatype Action<E> =
    | Post(x: E, mode: Q.Mode)
    | Producer(raw: seq<E>)
    | WaitDequeue(timeout: int)
    | TryDequeue
    | Consumer(wake: bool)

  const SPIN: nat := 1024

  /** One step of the producer thread. */
  function ProducerStep<E>(b: State<E>, raw: seq<E>): State<E>
    requires Q.InRange(b.q)
  {
    match b.s
    case SIdle => b
    case SEnqueuing =>
      var q := Q.Next(b.q, Q.PStep(raw));
      b.(q := q, s := if !q.p.PIdle? then SEnqueuing else if q.p.ok then SSignal else SIdle)
    case SSignal =>
      if b.count < -1 then b.(failed := true)
      else b.(count := b.count + 1, signals := b.signals + 1, s := if b.count < 0 then SPost else SIdle)
    case SPost => b.(kernel := b.kernel + 1, s := SIdle)
  }

  /** A successful wait hands over to the inner `try_dequeue`. */
  function Granted<E>(b: State<E>): State<E>
    requires Q.InRange(b.q)
  {
    b.(taken := b.taken + 1, w := WDequeue, q := Q.Next(b.q, Q.Dequeue))
  }

  /** One step of the consumer thread. */
  function ConsumerStep<E>(b: State<E>, wake: bool): State<E>
    requires Q.InRange(b.q)
  {
    match b.w
    case WIdle(_) => b
    case WTryLoad(spin, timeout) =>
      b.(w := if b.count > 0 then WTake else if spin then WSpinLoad(SPIN, timeout) else WIdle(None))
    case WTake => Granted(b.(count := b.count - 1))
    case WSpinLoad(left, timeout) =>
      b.(w := if left == 0 then WDecrement(timeout) else if b.count > 0 then WTake else WSpinLoad(left - 1, timeout))
    case WDecrement(timeout) =>
      var b' := b.(count := b.count - 1);
      if b.count > 0 then Granted(b') else b'.(w := if timeout != 0 then WKernel else WRestore)
    case WKernel =>
      if wake && b.kernel > 0 then Granted(b.(kernel := b.kernel - 1)) else b.(w := WRestore)
    case WRestore =>
      b.(count := b.count + 1, w := if b.count < 0 then WIdle(None) else WRetake)
    case WRetake =>
      b.(count := b.count - 1, w := if b.count > 0 then WKernelTry else WRestore)
    case WKernelTry =>
      if b.kernel > 0 then Granted(b.(kernel := b.kernel - 1)) else b.(w := WRestore)
    case WDequeue =>
      var q := Q.Next(b.q, Q.CStep);
      if !q.c.CIdle? then b.(q := q)
      else b.(q := q, w := WIdle(q.c.got), failed := q.c.got.None?)
  }

  function Next<E>(b: State<E>, a: Action<E>): State<E>
    requires Q.InRange(b.q)
  {
    if b.failed then b else
    match a
    case Post(x, mode) => if b.s.SIdle? then b.(s := SEnqueuing, q := Q.Next(b.q, Q.Enqueue(x, mode))) else b
    case Producer(raw) => ProducerStep(b, raw)
    case WaitDequeue(timeout) => if b.w.WIdle? then b.(w := WTryLoad(true, timeout)) else b
    case TryDequeue => if b.w.WIdle? then b.(w := WTryLoad(false, 0)) else b
    case Consumer(wake) => ConsumerStep(b, wake)
  }

  ghost predicate IsNew<E>(b: State<E>, size: nat, maxBlock: nat) {
    && T.IsNew(b.q, size, maxBlock)
    && b.count == 0 && b.kernel == 0 && b.s == SIdle && b.w == WIdle(None) && b.signals == 0 == b.taken && !b.failed
  }

  // ---------- the invariant ----------

  /** The waiter has taken its place in the count without having been granted a permit. */
  predicate Registered<E>(w: Waiter<E>) { w.WKernel? || w.WRestore? || w.WKernelTry? }

  /** The count is the number of unclaimed signals, less one for a registered waiter; a kernel
      permit exists or is about to be posted exactly when a signal has met a registered waiter. */
  ghost predicate SemaphoreOk<E>(b: State<E>) {
    && b.count == b.signals - b.taken - (if Registered(b.w) then 1 else 0)
    && b.kernel + (if b.s.SPost? then 1 else 0)
       == (if (Registered(b.w) && b.count >= 0) || b.w.WRetake? then 1 else 0)
    && (if Registered(b.w) then b.count >= -1 else b.count >= 0)
    && (b.w.WTake? || b.w.WRetake? ==> b.count >= 1)
  }

  /** Each signal stands for an element enqueued before it, each element dequeued for a permit
      taken before it. */
  ghost predicate CountsOk<E>(b: State<E>) {
    && |b.q.enq| == b.signals + (if b.s.SSignal? then 1 else 0)
    && |b.q.deq| + (if b.w.WDequeue? then 1 else 0) == b.taken
    && (b.s.SEnqueuing? <==> !b.q.p.PIdle?)
    && (b.w.WDequeue? <==> !b.q.c.CIdle?)
    && (b.q.c.CLoadTailBlock? ==> b.q.m.tailBlock != b.q.m.frontBlock)
  }

  ghost predicate Inv<E(!new)>(b: State<E>) {
    !b.failed && SpscQueueProof.Inv(b.q) && SemaphoreOk(b) && CountsOk(b)
  }

  // ---------- what the inner calls do to the histories ----------

  lemma InnerProducer<E>(q: Q.State<E>, raw: seq<E>)
    requires Q.InRange(q) && !q.p.PIdle?
    ensures var r := Q.ProducerStep(q, raw);
      |r.enq| == |q.enq| + (if r.p == Q.PIdle(true) then 1 else 0)
  {}

  lemma InnerConsumer<E>(q: Q.State<E>)
    requires Q.InRange(q) && !q.c.CIdle? && (q.c.CLoadTailBlock? ==> q.c.fb != q.m.tailBlock)
    ensures var r := Q.ConsumerStep(q);
      (r.c.CIdle? ==> r.c.got.Some?) && |r.deq| == |q.deq| + (if r.c.CIdle? then 1 else 0)
  {}

  lemma ProducerKeeps<E(!new)>(b: State<E>, raw: seq<E>)
    requires Inv(b) && Q.InRange(b.q)
    ensures Inv(ProducerStep(b, raw))
  {
    hide SpscQueueProof.Inv;
    if b.s.SEnqueuing? {
      T.NextKeepsInv(b.q, Q.PStep(raw));
      NotFailed(b.q);
      InnerProducer(b.q, raw);
      T.ProducerStepFrame(b.q, raw);
      if b.q.c.CLoadTailBlock? { T.AheadStays(b.q, Q.PStep(raw)); }
    }
  }

  lemma NotFailed<E(!new)>(q: Q.State<E>)
    requires SpscQueueProof.Inv(q)
    ensures !q.failed && (q.c.CLoadTailBlock? ==> q.c.fb == q.m.frontBlock)
  {}

  /** The inner dequeue that follows a successful wait finds an element. */
  lemma DequeueKeeps<E(!new)>(b: State<E>)
    requires Inv(b) && Q.InRange(b.q) && b.w.WDequeue?
    ensures Inv(ConsumerStep(b, false)) && ConsumerStep(b, true) == ConsumerStep(b, false)
  {
    hide SpscQueueProof.Inv;
    T.NextKeepsInv(b.q, Q.CStep);
    NotFailed(b.q);
    InnerConsumer(b.q);
    T.ConsumerStepFrame(b.q);
    if Q.Next(b.q, Q.CStep).c.CLoadTailBlock? { T.EmptyFrontBlock(b.q, Q.CStep); }
  }

  lemma WaitKeeps<E(!new)>(b: State<E>, wake: bool)
    requires Inv(b) && Q.InRange(b.q) && !b.w.WDequeue?
    ensures Inv(ConsumerStep(b, wake))
  {
    hide SpscQueueProof.Inv;
    T.NextKeepsInv(b.q, Q.Dequeue);
    NotFailed(b.q);
  }

  lemma NextKeepsInv<E(!new)>(b: State<E>, a: Action<E>)
    requires Inv(b)
    ensures Q.InRange(b.q) && Inv(Next(b, a))
  {
    hide SpscQueueProof.Inv;
    NotFailed(b.q);
    T.NextKeepsInv(b.q, Q.Dequeue);
    match a
    case Post(x, mode) => T.NextKeepsInv(b.q, Q.Enqueue(x, mode));
    case Producer(raw) => ProducerKeeps(b, raw);
    case WaitDequeue(_) =>
    case TryDequeue =>
    case Consumer(wake) => if b.w.WDequeue? { DequeueKeeps(b); } else { WaitKeeps(b, wake); }
  }

  // ---------- over whole runs ----------

  ghost predicate Moves<E>(b: State<E>, a: Action<E>, b': State<E>) { Q.InRange(b.q) && b' == Next(b, a) }

  ghost predicate IsRun<E>(tr: seq<State<E>>, acts: seq<Action<E>>) {
    |tr| == |acts| + 1 && forall i :: 0 <= i < |acts| ==> Moves(tr[i], acts[i], tr[i + 1])
  }

  lemma {:induction false} InvAlong<E(!new)>(tr: seq<State<E>>, acts: seq<Action<E>>, size: nat, maxBlock: nat, j: nat)
    requires IsRun(tr, acts) && IsNew(tr[0], size, maxBlock) && size >= 1 && j < |tr|
    ensures Inv(tr[j])
  {
    hide SpscQueueProof.Inv;
    if j == 0 {
      T.NewQueueInv(tr[0].q, size, maxBlock);
    } else {
      InvAlong(tr, acts, size, maxBlock, j - 1);
      assert Moves(tr[j - 1], acts[j - 1], tr[j]);
      NextKeepsInv(tr[j - 1], acts[j - 1]);
    }
  }

  /** With one signaller and one waiter, in every reachable state: no assertion has failed (so no
      successful wait ever met an empty queue and no signal saw a count below -1), successful waits
      never exceed signals, what has been dequeued is the beginning of what has been enqueued, and
      outside a wait the semaphore holds exactly the unclaimed signals with no kernel permit left
      over, so a wait that timed out has consumed nothing; and outside a call of the producer every
      element has been signalled. No wake-up is lost: a waiter that sleeps in
      the kernel while a signal is unclaimed has a permit, or one is about to be posted. */
  lemma BlockingQueueSafe<E(!new)>(tr: seq<State<E>>, acts: seq<Action<E>>, size: nat, maxBlock: nat, j: nat)
    requires IsRun(tr, acts) && IsNew(tr[0], size, maxBlock) && size >= 1 && j < |tr|
    ensures var b := tr[j];
      && !b.failed && b.count >= -1 && b.taken <= b.signals <= |b.q.enq| && b.q.deq <= b.q.enq
      && (b.w.WIdle? ==> b.count == b.signals - b.taken && b.kernel == 0 && !b.s.SPost? && |b.q.deq| == b.taken)
      && (b.w.WKernel? && b.signals > b.taken ==> b.kernel > 0 || b.s.SPost?)
      && (b.s.SIdle? ==> b.signals == |b.q.enq|)
  {
    InvAlong(tr, acts, size, maxBlock, j);
    var v :| SpscQueueProof.InvAt(tr[j].q, v);
  }

  // ---------- how a call ends ----------

  lemma WaiterOnlyMovesItself<E>(b: State<E>, a: Action<E>)
    requires Q.InRange(b.q) && !b.w.WIdle? && !a.Consumer?
    ensures Next(b, a).w == b.w
  {
    hide Q.InRange, Q.Next;
  }

  lemma DequeueEnds<E(!new)>(b: State<E>, wake: bool)
    requires Inv(b) && Q.InRange(b.q) && b.w.WDequeue?
    requires var c := ConsumerStep(b, wake); c.w.WIdle? && !c.failed
    ensures var c := ConsumerStep(b, wake); c.w.got.Some? && c.q.deq == b.q.deq + [c.w.got.value]
  {
    hide SpscQueueProof.Inv, Q.InRange, Q.ConsumerStep, SemaphoreOk;
    NotFailed(b.q);
    T.ConsumerTakesOnce(b.q);
  }

  lemma EmptyEnds<E(!new)>(b: State<E>, wake: bool)
    requires SemaphoreOk(b) && Q.InRange(b.q) && !b.w.WDequeue? && !b.w.WIdle? && ConsumerStep(b, wake).w.WIdle?
    ensures var c := ConsumerStep(b, wake); c.w.got.None? && b.signals == b.taken && c.q.deq == b.q.deq
  {
    hide Q.InRange, Q.Next;
  }

  lemma HowAStepEnds<E(!new)>(b: State<E>, a: Action<E>)
    requires Inv(b) && Q.InRange(b.q) && !b.w.WIdle? && Next(b, a).w.WIdle? && !Next(b, a).failed
    ensures match Next(b, a).w.got
      case None => b.signals == b.taken && Next(b, a).q.deq == b.q.deq
      case Some(y) => b.w.WDequeue? && Next(b, a).q.deq == b.q.deq + [y]
  {
    hide SpscQueueProof.Inv, Q.InRange, ConsumerStep, ProducerStep, SemaphoreOk, CountsOk;
    if !a.Consumer? {
      WaiterOnlyMovesItself(b, a);
      assert false;
    } else if b.w.WDequeue? {
      DequeueEnds(b, a.wake);
    } else {
      EmptyEnds(b, a.wake);
    }
  }

  /** A wait or a try comes back empty only at a moment when every signal has been claimed, and one that comes
      back with an element has just taken it off the queue. */
  lemma HowAWaitEnds<E(!new)>(tr: seq<State<E>>, acts: seq<Action<E>>, size: nat, maxBlock: nat, j: nat)
    requires IsRun(tr, acts) && IsNew(tr[0], size, maxBlock) && size >= 1 && j < |acts|
    requires !tr[j].w.WIdle? && tr[j + 1].w.WIdle?
    ensures match tr[j + 1].w.got
      case None => tr[j].signals == tr[j].taken && tr[j + 1].q.deq == tr[j].q.deq
      case Some(y) => tr[j].w.WDequeue? && tr[j + 1].q.deq == tr[j].q.deq + [y]
  {
    assert Moves(tr[j], acts[j], tr[j + 1]);
    hide SpscQueueProof.Inv, Q.InRange, Next, IsNew, SemaphoreOk, CountsOk;
    InvAlong(tr, acts, size, maxBlock, j);
    InvAlong(tr, acts, size, maxBlock, j + 1);
    HowAStepEnds(tr[j], acts[j]);
  }

  /** Where a waiter can be in a call with this timeout; `spin` is false for a mere try. */
  predicate OfCall<E>(w: Waiter<E>, spin: bool, timeout: int) {
    match w
    case WTryLoad(s, t) => s == spin && (spin ==> t == timeout)
    case WSpinLoad(_, t) => spin && t == timeout
    case WDecrement(t) => spin && t == timeout
    case WKernel => spin && timeout != 0
    case WRestore => spin
    case WRetake => spin
    case WKernelTry => spin
    case _ => true
  }

  /** The waiter is giving its place in the count back. */
  predicate GivingUp<E>(w: Waiter<E>) { w.WRestore? || w.WRetake? || w.WKernelTry? }

  /** A kernel wait of the call that began at `i` ended without a permit. */
  ghost predicate TimedOut<E>(tr: seq<State<E>>, acts: seq<Action<E>>, i: nat, j: nat)
    requires j <= |acts| < |tr|
  {
    exists n :: i < n < j && tr[n].w.WKernel? && acts[n].Consumer? && !(acts[n].wake && tr[n].kernel > 0)
  }

  lemma CallMoves<E>(b: State<E>, wake: bool, spin: bool, timeout: int)
    requires Q.InRange(b.q) && !b.w.WIdle? && OfCall(b.w, spin, timeout)
    ensures var w := ConsumerStep(b, wake).w;
      && OfCall(w, spin, timeout)
      && (GivingUp(w) && !GivingUp(b.w) ==>
            if timeout == 0 then b.w.WDecrement? else b.w.WKernel? && !(wake && b.kernel > 0))
      && (w == WIdle(None) ==> b.w.WDequeue? || b.w.WRestore? || (b.w.WTryLoad? && !spin))
  {
    hide Q.InRange, Q.Next;
  }

  lemma {:induction false} InsideWait<E(!new)>(tr: seq<State<E>>, acts: seq<Action<E>>, i: nat, j: nat, spin: bool, timeout: int)
    requires IsRun(tr, acts) && i < j < |tr| && tr[i].w.WIdle? && !tr[i].failed
    requires acts[i] == if spin then WaitDequeue(timeout) else TryDequeue
    requires forall m :: i < m <= j ==> !tr[m].w.WIdle?
    ensures OfCall(tr[j].w, spin, timeout)
    ensures GivingUp(tr[j].w) && timeout != 0 ==> TimedOut(tr, acts, i, j)
  {
    var b, a := tr[j - 1], acts[j - 1];
    assert Moves(b, a, tr[j]);
    if i + 1 < j {
      InsideWait(tr, acts, i, j - 1, spin, timeout);
      if a.Consumer? { CallMoves(b, a.wake, spin, timeout); } else { WaiterOnlyMovesItself(b, a); }
      hide ConsumerStep, ProducerStep, Q.InRange, Q.Next, OfCall;
      if GivingUp(tr[j].w) && timeout != 0 && !GivingUp(b.w) {
        assert tr[j - 1].w.WKernel? && acts[j - 1].Consumer?;
      }
    }
  }

  /** A wait with a timeout gives up only after a kernel wait that ended without a permit; a try and a wait with a
      timeout of zero never sleep. */
  lemma PatientWait<E(!new)>(tr: seq<State<E>>, acts: seq<Action<E>>, size: nat, maxBlock: nat,
                             i: nat, j: nat, spin: bool, timeout: int)
    requires IsRun(tr, acts) && IsNew(tr[0], size, maxBlock) && size >= 1 && i < j < |acts| && tr[i].w.WIdle?
    requires acts[i] == if spin then WaitDequeue(timeout) else TryDequeue
    requires forall m :: i < m <= j ==> !tr[m].w.WIdle?
    ensures !spin || timeout == 0 ==> !tr[j].w.WKernel?
    ensures spin && timeout != 0 && tr[j + 1].w == WIdle(None) ==> TimedOut(tr, acts, i, j)
  {
    BlockingQueueSafe(tr, acts, size, maxBlock, i);
    BlockingQueueSafe(tr, acts, size, maxBlock, j + 1);
    InsideWait(tr, acts, i, j, spin, timeout);
    assert Moves(tr[j], acts[j], tr[j + 1]);
    hide IsNew, Q.InRange, Q.Next, TimedOut;
    if acts[j].Consumer? { CallMoves(tr[j], acts[j].wake, spin, timeout); } else { WaiterOnlyMovesItself(tr[j], acts[j]); }
  }

  /** How many of the actions from `a` up to `b` are steps of the waiter. */
  function WSteps<E>(acts: seq<Action<E>>, a: nat, b: nat): nat
    requires a <= b <= |acts|
  {
    if a == b then 0 else WSteps(acts, a, b - 1) + (if acts[b - 1].Consumer? then 1 else 0)
  }

  lemma MovesAt<E>(tr: seq<State<E>>, acts: seq<Action<E>>, j: nat)
    requires IsRun(tr, acts) && j < |acts|
    ensures j + 1 < |tr| && Q.InRange(tr[j].q) && tr[j + 1] == Next(tr[j], acts[j])
  {
    hide Q.InRange, Next;
    assert Moves(tr[j], acts[j], tr[j + 1]);
  }

  lemma WStepsSnoc<E>(acts: seq<Action<E>>, a: nat, b: nat)
    requires a <= b < |acts|
    ensures WSteps(acts, a, b + 1) == WSteps(acts, a, b) + (if acts[b].Consumer? then 1 else 0)
  {}

  lemma NoSteps<E>(acts: seq<Action<E>>, a: nat)
    requires a <= |acts|
    ensures WSteps(acts, a, a) == 0
  {}

  /** Spinning ends: every step of the waiter uses up one of the 1024 tries. */
  lemma {:induction false} SpinEnds<E(!new)>(tr: seq<State<E>>, acts: seq<Action<E>>, size: nat, maxBlock: nat, i: nat, j: nat)
    requires IsRun(tr, acts) && IsNew(tr[0], size, maxBlock) && size >= 1 && i <= j < |tr| == |acts| + 1
    requires forall m :: i <= m <= j ==> tr[m].w.WSpinLoad?
    ensures tr[j].w.left + WSteps(acts, i, j) == tr[i].w.left
  {
    hide *;
    if i < j {
      MovesAt(tr, acts, j - 1);
      BlockingQueueSafe(tr, acts, size, maxBlock, j - 1);
      SpinStep(tr[j - 1], acts[j - 1]);
      WStepsSnoc(acts, i, j - 1);
      SpinEnds(tr, acts, size, maxBlock, i, j - 1);
    } else {
      NoSteps(acts, i);
    }
  }

  lemma SpinStep<E>(b: State<E>, a: Action<E>)
    requires Q.InRange(b.q) && !b.failed && b.w.WSpinLoad? && Next(b, a).w.WSpinLoad?
    ensures Next(b, a).w.left + (if a.Consumer? then 1 else 0) == b.w.left
  {
    if !a.Consumer? { WaiterOnlyMovesItself(b, a); }
    hide Q.InRange, Q.Next, ProducerStep;
  }

  /** How many steps of its own a waiter that has a permit waiting needs to take it. */
  function StepsToTake<E>(w: Waiter<E>): nat {
    if w.WRestore? then 3 else if w.WRetake? then 2 else 1
  }

  /** A permit that has been posted is taken: a waiter in the kernel, or already giving up, comes closer to it with
      every step of its own, and is granted it after at most three. */
  lemma PostedIsTaken<E(!new)>(b: State<E>)
    requires Inv(b) && Q.InRange(b.q) && b.kernel > 0 && (b.w.WKernel? || GivingUp(b.w))
    ensures var c := ConsumerStep(b, true);
      if StepsToTake(b.w) == 1 then c.w.WDequeue? && c.taken == b.taken + 1
      else c.kernel == b.kernel && GivingUp(c.w) && StepsToTake(c.w) == StepsToTake(b.w) - 1
  {
    hide SpscQueueProof.Inv, Q.InRange, Q.Next;
  }

  // ---------- calls that do not sleep end ----------

  /** How many more steps of its own a call of the producer can take. */
  function PostRank<E>(b: State<E>): nat {
    match b.s
    case SIdle => 0
    case SPost => 1
    case SSignal => 2
    case SEnqueuing => 2 + T.PRank(b.q.p)
  }

  /** The same for a try. */
  function TryRank<E>(b: State<E>): nat {
    match b.w
    case WTryLoad(_, _) => 15
    case WTake => 14
    case WDequeue => T.CRank(b.q.c)
    case _ => 0
  }

  /** Where a try can be, and a wait that finds a signal. */
  predicate Trying<E>(b: State<E>) {
    || b.w.WIdle? || b.w.WTake? || b.w.WDequeue?
    || (b.w.WTryLoad? && (!b.w.spin || b.signals > b.taken))
  }

  lemma PostAdvances<E(!new)>(b: State<E>, raw: seq<E>)
    requires Inv(b) && Q.InRange(b.q) && !b.s.SIdle? && !ProducerStep(b, raw).failed
    ensures PostRank(ProducerStep(b, raw)) < PostRank(b)
  {
    NotFailed(b.q);
    if b.s.SEnqueuing? {
      T.NextKeepsInv(b.q, Q.PStep(raw));
      NotFailed(Q.Next(b.q, Q.PStep(raw)));
      T.ProducerAdvances(b.q, raw);
    }
    hide SpscQueueProof.Inv, Q.InRange, Q.ProducerStep, T.PRank;
  }

  lemma DequeueAdvances<E(!new)>(b: State<E>, wake: bool)
    requires Inv(b) && Q.InRange(b.q) && b.w.WDequeue?
    ensures Trying(ConsumerStep(b, wake)) && TryRank(ConsumerStep(b, wake)) < TryRank(b)
  {
    hide SpscQueueProof.Inv, Q.InRange, Q.ConsumerStep, T.CRank, SemaphoreOk;
    NotFailed(b.q);
    T.NextKeepsInv(b.q, Q.CStep);
    NotFailed(Q.Next(b.q, Q.CStep));
    T.ConsumerAdvances(b.q);
  }

  lemma TryAdvances<E(!new)>(b: State<E>, wake: bool)
    requires Inv(b) && Q.InRange(b.q) && !b.w.WIdle? && Trying(b)
    ensures Trying(ConsumerStep(b, wake)) && TryRank(ConsumerStep(b, wake)) < TryRank(b)
  {
    hide SpscQueueProof.Inv, Q.InRange, Q.Next, T.CRank;
    NotFailed(b.q);
    if b.w.WDequeue? {
      DequeueAdvances(b, wake);
    } else {
      GrantStarts(b.q);
    }
  }

  lemma GrantStarts<E>(q: Q.State<E>)
    requires Q.InRange(q) && q.c.CIdle? && !q.failed
    ensures T.CRank(Q.Next(q, Q.Dequeue).c) == 13
  {
    T.CallStarts(q, Q.Dequeue);
  }

  lemma EnqueueLeavesConsumer<E>(q: Q.State<E>, a: Q.Action<E>)
    requires Q.InRange(q) && (a.Enqueue? || a.PStep?)
    ensures Q.Next(q, a).c == q.c
  {
    if a.PStep? { T.ProducerStepFrame(q, a.raw); }
    hide Q.InRange, Q.ProducerStep;
  }

  lemma OthersLeaveTryRank<E(!new)>(b: State<E>, a: Action<E>)
    requires Q.InRange(b.q) && !b.w.WIdle? && !a.Consumer? && !b.failed
    ensures TryRank(Next(b, a)) == TryRank(b)
  {
    hide Q.InRange, Q.Next, T.CRank;
    if a.Producer? { EnqueueLeavesConsumer(b.q, Q.PStep(a.raw)); }
    if a.Post? { EnqueueLeavesConsumer(b.q, Q.Enqueue(a.x, a.mode)); }
  }

  lemma DequeueLeavesProducer<E>(q: Q.State<E>)
    requires Q.InRange(q)
    ensures Q.Next(q, Q.Dequeue).p == q.p && Q.Next(q, Q.CStep).p == q.p
  {
    T.ConsumerStepFrame(q);
    hide Q.InRange, Q.ConsumerStep;
  }

  lemma WaiterLeavesProducer<E>(b: State<E>, wake: bool)
    requires Q.InRange(b.q)
    ensures ConsumerStep(b, wake).s == b.s && ConsumerStep(b, wake).q.p == b.q.p
  {
    DequeueLeavesProducer(b.q);
    hide Q.InRange, Q.Next;
  }

  lemma OthersLeavePostRank<E(!new)>(b: State<E>, a: Action<E>)
    requires Q.InRange(b.q) && !b.s.SIdle? && !a.Producer? && !b.failed
    ensures PostRank(Next(b, a)) == PostRank(b)
  {
    hide Q.InRange, ConsumerStep, ProducerStep, Q.Next, T.PRank;
    if a.Consumer? { WaiterLeavesProducer(b, a.wake); }
  }

  /** A try, and a wait that begins while a signal is unclaimed, starts at once and is over after at most fifteen steps
      of its own, whatever the producer does. */
  lemma {:induction false} TryIsWaitFree<E(!new)>(tr: seq<State<E>>, acts: seq<Action<E>>, size: nat, maxBlock: nat, i: nat, j: nat)
    requires IsRun(tr, acts) && IsNew(tr[0], size, maxBlock) && size >= 1
    requires i < j < |tr| == |acts| + 1 && tr[i].w.WIdle?
    requires acts[i] == TryDequeue || (acts[i].WaitDequeue? && tr[i].signals > tr[i].taken)
    requires forall m :: i < m < j ==> !tr[m].w.WIdle?
    ensures !tr[i + 1].w.WIdle? && Trying(tr[j]) && WSteps(acts, i + 1, j) + TryRank(tr[j]) <= 15
  {
    hide *;
    InvAlong(tr, acts, size, maxBlock, j - 1);
    InvAlong(tr, acts, size, maxBlock, j);
    StillRight(tr[j - 1]);
    StillRight(tr[j]);
    MovesAt(tr, acts, j - 1);
    if i + 1 < j {
      TryIsWaitFree(tr, acts, size, maxBlock, i, j - 1);
      WStepsSnoc(acts, i + 1, j - 1);
      TryMoves(tr[j - 1], acts[j - 1]);
    } else {
      NoSteps(acts, j);
      TryStarts(tr[i], acts[i]);
    }
  }

  lemma StillRight<E(!new)>(b: State<E>)
    requires Inv(b)
    ensures !b.failed
  {}

  lemma TryStarts<E>(b: State<E>, a: Action<E>)
    requires Q.InRange(b.q) && b.w.WIdle? && !b.failed
    requires a == TryDequeue || (a.WaitDequeue? && b.signals > b.taken)
    ensures var c := Next(b, a); !c.w.WIdle? && Trying(c) && TryRank(c) == 15
  {
    hide Q.InRange;
  }

  lemma TryMoves<E(!new)>(b: State<E>, a: Action<E>)
    requires Inv(b) && Q.InRange(b.q) && !b.failed && !b.w.WIdle? && Trying(b)
    ensures Trying(Next(b, a)) && TryRank(Next(b, a)) + (if a.Consumer? then 1 else 0) <= TryRank(b)
  {
    hide Inv, Q.InRange, ProducerStep, ConsumerStep, TryRank;
    if a.Consumer? {
      TryAdvances(b, a.wake);
    } else {
      WaiterOnlyMovesItself(b, a);
      SignalsGrow(b, a);
      OthersLeaveTryRank(b, a);
    }
  }

  /** How many of the actions from `a` up to `b` are steps of the producer. */
  function SSteps<E>(acts: seq<Action<E>>, a: nat, b: nat): nat
    requires a <= b <= |acts|
  {
    if a == b then 0 else SSteps(acts, a, b - 1) + (if acts[b - 1].Producer? then 1 else 0)
  }

  lemma SStepsSnoc<E>(acts: seq<Action<E>>, a: nat, b: nat)
    requires a <= b < |acts|
    ensures SSteps(acts, a, b + 1) == SSteps(acts, a, b) + (if acts[b].Producer? then 1 else 0)
  {}

  lemma NoPosts<E>(acts: seq<Action<E>>, a: nat)
    requires a <= |acts|
    ensures SSteps(acts, a, a) == 0
  {}

  lemma PostStarts<E>(b: State<E>, x: E, mode: Q.Mode)
    requires Q.InRange(b.q) && b.s.SIdle? && !b.failed && !b.q.failed && b.q.p.PIdle?
    ensures var c := Next(b, Post(x, mode)); !c.s.SIdle? && PostRank(c) == 13
  {
    T.CallStarts(b.q, Q.Enqueue(x, mode));
    hide Q.InRange, T.PRank;
  }

  lemma PostMoves<E(!new)>(b: State<E>, a: Action<E>)
    requires Inv(b) && Q.InRange(b.q) && !b.failed && !b.s.SIdle? && !Next(b, a).failed
    ensures PostRank(Next(b, a)) + (if a.Producer? then 1 else 0) <= PostRank(b)
  {
    hide Inv, Q.InRange, ProducerStep, ConsumerStep, PostRank;
    if a.Producer? { PostAdvances(b, a.raw); } else { OthersLeavePostRank(b, a); }
  }

  lemma IdlePost<E(!new)>(b: State<E>)
    requires Inv(b) && b.s.SIdle?
    ensures b.q.p.PIdle? && !b.q.failed
  {
    NotFailed(b.q);
  }

  /** An enqueue with its signal starts at once and is over after at most thirteen steps of its own. */
  lemma {:induction false} PostIsWaitFree<E(!new)>(tr: seq<State<E>>, acts: seq<Action<E>>, size: nat, maxBlock: nat,
                                                   i: nat, j: nat, x: E, mode: Q.Mode)
    requires IsRun(tr, acts) && IsNew(tr[0], size, maxBlock) && size >= 1
    requires i < j < |tr| == |acts| + 1 && tr[i].s.SIdle? && acts[i] == Post(x, mode)
    requires forall m :: i < m < j ==> !tr[m].s.SIdle?
    ensures !tr[i + 1].s.SIdle? && SSteps(acts, i + 1, j) + PostRank(tr[j]) <= 13
  {
    hide *;
    InvAlong(tr, acts, size, maxBlock, j - 1);
    InvAlong(tr, acts, size, maxBlock, j);
    StillRight(tr[j - 1]);
    StillRight(tr[j]);
    MovesAt(tr, acts, j - 1);
    if i + 1 < j {
      PostIsWaitFree(tr, acts, size, maxBlock, i, j - 1, x, mode);
      SStepsSnoc(acts, i + 1, j - 1);
      PostMoves(tr[j - 1], acts[j - 1]);
    } else {
      NoPosts(acts, j);
      IdlePost(tr[i]);
      PostStarts(tr[i], x, mode);
    }
  }

  /** Signals are never taken back, and none is claimed by a call before it is granted one. */
  lemma {:induction false} SignalsStay<E(!new)>(tr: seq<State<E>>, acts: seq<Action<E>>, size: nat, maxBlock: nat, i: nat, j: nat)
    requires IsRun(tr, acts) && IsNew(tr[0], size, maxBlock) && size >= 1 && i <= j < |tr| == |acts| + 1
    requires forall m :: i < m <= j ==> !tr[m].w.WIdle? && !tr[m].w.WDequeue?
    ensures tr[j].signals >= tr[i].signals && tr[j].taken == tr[i].taken
  {
    hide *;
    if i < j {
      SignalsStay(tr, acts, size, maxBlock, i, j - 1);
      MovesAt(tr, acts, j - 1);
      SignalsGrow(tr[j - 1], acts[j - 1]);
    }
  }

  lemma SignalsGrow<E>(b: State<E>, a: Action<E>)
    requires Q.InRange(b.q)
    ensures Next(b, a).signals >= b.signals
    ensures !Next(b, a).w.WDequeue? && !Next(b, a).w.WIdle? ==> Next(b, a).taken == b.taken
    ensures !a.Consumer? ==> Next(b, a).taken == b.taken
  {
    hide Q.InRange, Q.Next;
  }

  /** A try or a wait that begins while a signal is unclaimed comes back with an element. */
  lemma FindsWhatIsThere<E(!new)>(tr: seq<State<E>>, acts: seq<Action<E>>, size: nat, maxBlock: nat, i: nat, j: nat)
    requires IsRun(tr, acts) && IsNew(tr[0], size, maxBlock) && size >= 1 && i < j < |acts|
    requires tr[i].w.WIdle? && tr[i].signals > tr[i].taken && tr[j + 1].w.WIdle?
    requires forall m :: i < m <= j ==> !tr[m].w.WIdle?
    ensures tr[j + 1].w.got.Some?
  {
    HowAWaitEnds(tr, acts, size, maxBlock, j);
    if tr[j + 1].w.got.None? {
      NotGranted(tr, acts, size, maxBlock, i, j);
      SignalsStay(tr, acts, size, maxBlock, i, j);
    }
  }

  /** A call that comes back empty was never granted a permit. */
  lemma {:induction false} NotGranted<E(!new)>(tr: seq<State<E>>, acts: seq<Action<E>>, size: nat, maxBlock: nat, i: nat, j: nat)
    requires IsRun(tr, acts) && IsNew(tr[0], size, maxBlock) && size >= 1 && i < j < |acts| == |tr| - 1
    requires forall m :: i < m <= j ==> !tr[m].w.WIdle?
    requires tr[j + 1].w == WIdle(None)
    ensures forall m :: i < m <= j ==> !tr[m].w.WDequeue?
  {
    hide *;
    InvAlong(tr, acts, size, maxBlock, j + 1);
    StillRight(tr[j + 1]);
    forall m | i < m <= j ensures !tr[m].w.WDequeue? {
      if tr[m].w.WDequeue? {
        GrantedStays(tr, acts, m, j);
        MovesAt(tr, acts, j);
        DequeueNeverEmpty(tr[j], acts[j]);
      }
    }
  }

  lemma {:induction false} GrantedStays<E>(tr: seq<State<E>>, acts: seq<Action<E>>, m: nat, j: nat)
    requires IsRun(tr, acts) && m <= j < |tr| == |acts| + 1 && tr[m].w.WDequeue?
    requires forall k :: m <= k <= j ==> !tr[k].w.WIdle?
    ensures tr[j].w.WDequeue?
  {
    hide *;
    if m < j {
      GrantedStays(tr, acts, m, j - 1);
      MovesAt(tr, acts, j - 1);
      GrantedStep(tr[j - 1], acts[j - 1]);
    }
  }

  lemma GrantedStep<E>(b: State<E>, a: Action<E>)
    requires Q.InRange(b.q) && b.w.WDequeue?
    ensures Next(b, a).w.WDequeue? || Next(b, a).w.WIdle?
  {
    hide Q.InRange, Q.Next;
  }

  lemma DequeueNeverEmpty<E>(b: State<E>, a: Action<E>)
    requires Q.InRange(b.q) && b.w.WDequeue? && Next(b, a).w == WIdle(None)
    ensures Next(b, a).failed
  {
    hide Q.InRange, Q.Next;
  }
}
