/** The single-producer, single-consumer queue of src/queue/readerwriterqueue.hpp as a step
    machine: every atomic load or store of the producer (`inner_enqueue`) and of the consumer
    (`try_dequeue`) is one step, and the two threads interleave freely over sequentially
    consistent memory.  `enq` and `deq` record, in order, the elements whose enqueue and dequeue
    have taken effect; `failed` is set by any of the source's assertions that does not hold. */
module SpscQueue {

  import opened Wrappers

  /** One circular buffer.  `localTail` is the consumer's stale copy of `tail`, `localFront` the
      producer's stale copy of `front`; one slot of `data` is always left unused. */
  datatype Block<T> = Block(front: nat, localTail: nat, tail: nat, localFront: nat, next: nat, data: seq<T>)

  datatype Mode = CanAlloc | CannotAlloc

  /** The producer's program counter and locals, one constructor per atomic access. */
  datatype Producer<T> =
    | PIdle(ok: bool)
    | PLoadTailBlock(x: T, mode: Mode)
    | PLoadTail(x: T, mode: Mode, tb: nat)
    | PLoadFront(x: T, mode: Mode, tb: nat, bt: nat)
    | PWrite(x: T, tb: nat, bt: nat)
    | PStoreTail(x: T, tb: nat, bt: nat)
    | PLoadNext(x: T, mode: Mode, tb: nat)
    | PLoadFrontBlock(x: T, mode: Mode, tb: nat, nx: nat)
    | PReloadNext(x: T, tb: nat)
    | PNextFront(x: T, tn: nat)
    | PNextTail(x: T, tn: nat, nf: nat)
    | PNextWrite(x: T, tn: nat, nt: nat)
    | PNextStoreTail(x: T, tn: nat, nt: nat)
    | PAlloc(x: T, tb: nat)
    | PLinkNew(x: T, tb: nat, newBlock: Block<T>)
    | PStoreNext(x: T, tb: nat, newBlock: Block<T>)
    | PPublish(x: T, tn: nat)

  /** The consumer's program counter and locals; `CIdle(None)` is a return of `false`. */
  datatype Consumer<T> =
    | CIdle(got: Option<T>)
    | CLoadFrontBlock
    | CLoadFront(fb: nat)
    | CLoadTail(fb: nat, bf: nat)
    | CLoadTailBlock(fb: nat)
    | CReloadFrontBlock
    | CReloadTail(fb: nat)
    | CReloadFront(fb: nat, bt: nat)
    | CRead(fb: nat, bf: nat)
    | CStoreFront(fb: nat, bf: nat, x: T)
    | CLoadNext(fb: nat)
    | CNextFront(nb: nat)
    | CNextTail(nb: nat, nf: nat)
    | CStoreFrontBlock(nb: nat, nf: nat)

  /** The memory both threads see. */
  datatype Mem<T> = Mem(blocks: seq<Block<T>>, frontBlock: nat, tailBlock: nat)

  datatype State<T> = State(
    m: Mem<T>, largest: nat, maxBlock: nat,
    p: Producer<T>, c: Consumer<T>, enq: seq<T>, deq: seq<T>, failed: bool)

  /** What the scheduler does next.  `PStep` carries what `malloc` would return: raw memory of
      the requested size, or anything else for a failed allocation. */
  datatype Action<T> = Enqueue(x: T, mode: Mode) | PStep(raw: seq<T>) | Dequeue | CStep

  // ---------- index arithmetic ----------

  /** `(i + 1) & sizeMask` for an index of a block of `n` slots; see Bits.MaskIsBump. */
  function Bump(i: nat, n: nat): nat { if i + 1 == n then 0 else i + 1 }

  /** How many steps lead from index `a` forward to index `b`. */
  function Dist(a: nat, b: nat, n: nat): nat
    requires a < n && b < n
  {
    if a <= b then b - a else b + n - a
  }

  predicate IndicesOk<T>(b: Block<T>) {
    b.front < |b.data| && b.tail < |b.data| && b.localFront < |b.data| && b.localTail < |b.data|
  }

  // ---------- the machine ----------

  /** Every block number and index that a step may follow is in range. */
  predicate InRange<T>(s: State<T>) {
    s.largest >= 1 && s.maxBlock >= 2 && MemInRange(s.m) && PInRange(s.m, s.p) && CInRange(s.m, s.c)
  }

  predicate MemInRange<T>(m: Mem<T>) {
    && m.frontBlock < |m.blocks| && m.tailBlock < |m.blocks|
    && (forall i :: 0 <= i < |m.blocks| ==> IndicesOk(m.blocks[i]) && m.blocks[i].next < |m.blocks|)
  }

  predicate PInRange<T>(m: Mem<T>, p: Producer<T>) {
    match p
    case PIdle(_) => true
    case PLoadTailBlock(_, _) => true
    case PLoadTail(_, _, tb) => tb < |m.blocks|
    case PLoadFront(_, _, tb, bt) => tb < |m.blocks| && bt < |m.blocks[tb].data|
    case PWrite(_, tb, bt) => tb < |m.blocks| && bt < |m.blocks[tb].data|
    case PStoreTail(_, tb, bt) => tb < |m.blocks| && bt < |m.blocks[tb].data|
    case PLoadNext(_, _, tb) => tb < |m.blocks|
    case PLoadFrontBlock(_, _, tb, nx) => tb < |m.blocks| && nx < |m.blocks|
    case PReloadNext(_, tb) => tb < |m.blocks|
    case PNextFront(_, tn) => tn < |m.blocks|
    case PNextTail(_, tn, nf) => tn < |m.blocks| && nf < |m.blocks[tn].data|
    case PNextWrite(_, tn, nt) => tn < |m.blocks| && nt < |m.blocks[tn].data|
    case PNextStoreTail(_, tn, nt) => tn < |m.blocks| && nt < |m.blocks[tn].data|
    case PAlloc(_, tb) => tb < |m.blocks|
    case PLinkNew(_, tb, newBlock) => tb < |m.blocks| && IndicesOk(newBlock)
    case PStoreNext(_, tb, newBlock) => tb < |m.blocks| && IndicesOk(newBlock) && newBlock.next < |m.blocks|
    case PPublish(_, tn) => tn < |m.blocks|
  }

  predicate CInRange<T>(m: Mem<T>, c: Consumer<T>) {
    match c
    case CIdle(_) => true
    case CLoadFrontBlock => true
    case CLoadFront(fb) => fb < |m.blocks|
    case CLoadTail(fb, bf) => fb < |m.blocks| && bf < |m.blocks[fb].data|
    case CLoadTailBlock(fb) => fb < |m.blocks|
    case CReloadFrontBlock => true
    case CReloadTail(fb) => fb < |m.blocks|
    case CReloadFront(fb, bt) => fb < |m.blocks| && bt < |m.blocks[fb].data|
    case CRead(fb, bf) => fb < |m.blocks| && bf < |m.blocks[fb].data|
    case CStoreFront(fb, bf, _) => fb < |m.blocks| && bf < |m.blocks[fb].data|
    case CLoadNext(fb) => fb < |m.blocks|
    case CNextFront(nb) => nb < |m.blocks|
    case CNextTail(nb, nf) => nb < |m.blocks| && nf < |m.blocks[nb].data|
    case CStoreFrontBlock(nb, nf) => nb < |m.blocks| && nf < |m.blocks[nb].data|
  }

  function SetBlock<T>(m: Mem<T>, i: nat, b: Block<T>): Mem<T>
    requires i < |m.blocks|
  {
    m.(blocks := m.blocks[i := b])
  }

  /** The size the next allocated block gets. */
  function NewBlockSize<T>(s: State<T>): nat {
    if s.largest >= s.maxBlock then s.largest else 2 * s.largest
  }

  /** One step of `inner_enqueue`. */
  function ProducerStep<T>(s: State<T>, raw: seq<T>): State<T>
    requires InRange(s)
  {
    match s.p
    case PIdle(_) => s
    case PLoadTailBlock(x, mode) => s.(p := PLoadTail(x, mode, s.m.tailBlock))
    case PLoadTail(x, mode, tb) =>
      var b := s.m.blocks[tb];
      s.(p := if Bump(b.tail, |b.data|) != b.localFront then PWrite(x, tb, b.tail) else PLoadFront(x, mode, tb, b.tail))
    case PLoadFront(x, mode, tb, bt) =>
      var b := s.m.blocks[tb];
      s.(m := SetBlock(s.m, tb, b.(localFront := b.front)),
         p := if Bump(bt, |b.data|) != b.front then PWrite(x, tb, bt) else PLoadNext(x, mode, tb))
    case PWrite(x, tb, bt) =>
      var b := s.m.blocks[tb];
      s.(m := SetBlock(s.m, tb, b.(data := b.data[bt := x])), p := PStoreTail(x, tb, bt))
    case PStoreTail(x, tb, bt) =>
      var b := s.m.blocks[tb];
      s.(m := SetBlock(s.m, tb, b.(tail := Bump(bt, |b.data|))), enq := s.enq + [x], p := PIdle(true))
    case PLoadNext(x, mode, tb) => s.(p := PLoadFrontBlock(x, mode, tb, s.m.blocks[tb].next))
    case PLoadFrontBlock(x, mode, tb, nx) =>
      s.(p := if nx != s.m.frontBlock then PReloadNext(x, tb)
              else if mode.CanAlloc? then PAlloc(x, tb)
              else PIdle(false))
    case PReloadNext(x, tb) => s.(p := PNextFront(x, s.m.blocks[tb].next))
    case PNextFront(x, tn) =>
      var b := s.m.blocks[tn];
      s.(m := SetBlock(s.m, tn, b.(localFront := b.front)), p := PNextTail(x, tn, b.front))
    case PNextTail(x, tn, nf) =>
      var b := s.m.blocks[tn];
      if nf != b.tail then s.(failed := true)
      else s.(m := SetBlock(s.m, tn, b.(localFront := nf)), p := PNextWrite(x, tn, b.tail))
    case PNextWrite(x, tn, nt) =>
      var b := s.m.blocks[tn];
      s.(m := SetBlock(s.m, tn, b.(data := b.data[nt := x])), p := PNextStoreTail(x, tn, nt))
    case PNextStoreTail(x, tn, nt) =>
      var b := s.m.blocks[tn];
      s.(m := SetBlock(s.m, tn, b.(tail := Bump(nt, |b.data|))), p := PPublish(x, tn))
    case PAlloc(x, tb) =>
      if |raw| != NewBlockSize(s) then s.(p := PIdle(false))
      else s.(largest := NewBlockSize(s), p := PLinkNew(x, tb, Block(0, 1, 1, 0, 0, raw[0 := x])))
    case PLinkNew(x, tb, newBlock) => s.(p := PStoreNext(x, tb, newBlock.(next := s.m.blocks[tb].next)))
    case PStoreNext(x, tb, newBlock) =>
      s.(m := s.m.(blocks := s.m.blocks[tb := s.m.blocks[tb].(next := |s.m.blocks|)] + [newBlock]),
         p := PPublish(x, |s.m.blocks|))
    case PPublish(x, tn) => s.(m := s.m.(tailBlock := tn), enq := s.enq + [x], p := PIdle(true))
  }

  /** One step of `try_dequeue`. */
  function ConsumerStep<T>(s: State<T>): State<T>
    requires InRange(s)
  {
    match s.c
    case CIdle(_) => s
    case CLoadFrontBlock => s.(c := CLoadFront(s.m.frontBlock))
    case CLoadFront(fb) =>
      var b := s.m.blocks[fb];
      s.(c := if b.front != b.localTail then CRead(fb, b.front) else CLoadTail(fb, b.front))
    case CLoadTail(fb, bf) =>
      var b := s.m.blocks[fb];
      s.(m := SetBlock(s.m, fb, b.(localTail := b.tail)),
         c := if bf != b.tail then CRead(fb, bf) else CLoadTailBlock(fb))
    case CLoadTailBlock(fb) => s.(c := if fb != s.m.tailBlock then CReloadFrontBlock else CIdle(None))
    case CReloadFrontBlock => s.(c := CReloadTail(s.m.frontBlock))
    case CReloadTail(fb) =>
      var b := s.m.blocks[fb];
      s.(m := SetBlock(s.m, fb, b.(localTail := b.tail)), c := CReloadFront(fb, b.tail))
    case CReloadFront(fb, bt) =>
      var b := s.m.blocks[fb];
      s.(c := if b.front != bt then CRead(fb, b.front) else CLoadNext(fb))
    case CRead(fb, bf) => s.(c := CStoreFront(fb, bf, s.m.blocks[fb].data[bf]))
    case CStoreFront(fb, bf, x) =>
      var b := s.m.blocks[fb];
      s.(m := SetBlock(s.m, fb, b.(front := Bump(bf, |b.data|))), deq := s.deq + [x], c := CIdle(Some(x)))
    case CLoadNext(fb) => s.(c := CNextFront(s.m.blocks[fb].next))
    case CNextFront(nb) => s.(c := CNextTail(nb, s.m.blocks[nb].front))
    case CNextTail(nb, nf) =>
      var b := s.m.blocks[nb];
      if nf == b.tail then s.(failed := true)
      else s.(m := SetBlock(s.m, nb, b.(localTail := b.tail)), c := CStoreFrontBlock(nb, nf))
    case CStoreFrontBlock(nb, nf) => s.(m := s.m.(frontBlock := nb), c := CRead(nb, nf))
  }

  /** One scheduled action; a call while the thread is already inside one, or any step after a
      failed assertion, changes nothing. */
  function Next<T>(s: State<T>, a: Action<T>): (r: State<T>)
    requires InRange(s)
  {
    if s.failed then s else
    match a
    case Enqueue(x, mode) => if s.p.PIdle? then s.(p := PLoadTailBlock(x, mode)) else s
    case PStep(raw) => ProducerStep(s, raw)
    case Dequeue => if s.c.CIdle? then s.(c := CLoadFrontBlock) else s
    case CStep => ConsumerStep(s)
  }
}
