/** The ring invariant of the queue machine and its preservation by every step of either thread. */
module SpscQueueProof {

  import opened Wrappers
  import opened SpscQueue

  // ---------- one block ----------

  /** Going round the block one meets, in this order, the producer's stale front, the front, the
      consumer's stale tail and the tail. */
  ghost predicate Ordered<T>(b: Block<T>) {
    && |b.data| >= 2 && IndicesOk(b)
    && Dist(b.localFront, b.front, |b.data|) + Dist(b.front, b.localTail, |b.data|) + Dist(b.localTail, b.tail, |b.data|)
       == Dist(b.localFront, b.tail, |b.data|)
  }

  ghost predicate Full<T>(b: Block<T>)
    requires IndicesOk(b)
  {
    Dist(b.front, b.tail, |b.data|) + 1 == |b.data|
  }

  function Wrap(i: nat, n: nat): nat { if i < n then i else i - n }

  /** The elements held by a block, oldest first. */
  ghost function Elems<T>(b: Block<T>): (r: seq<T>)
    requires IndicesOk(b)
    ensures |r| == Dist(b.front, b.tail, |b.data|)
  {
    seq(Dist(b.front, b.tail, |b.data|),
        i requires 0 <= i < Dist(b.front, b.tail, |b.data|) => b.data[Wrap(b.front + i, |b.data|)])
  }

  lemma ElemsAt<T>(b: Block<T>)
    requires IndicesOk(b)
    ensures forall i :: 0 <= i < |Elems(b)| ==> Elems(b)[i] == b.data[Wrap(b.front + i, |b.data|)]
  {}

  lemma ElemsPush<T>(b: Block<T>)
    requires Ordered(b) && Bump(b.tail, |b.data|) != b.front
    ensures IndicesOk(b.(tail := Bump(b.tail, |b.data|)))
    ensures Elems(b.(tail := Bump(b.tail, |b.data|))) == Elems(b) + [b.data[b.tail]]
  {
    ElemsAt(b);
    ElemsAt(b.(tail := Bump(b.tail, |b.data|)));
  }

  lemma ElemsPop<T>(b: Block<T>)
    requires Ordered(b) && b.front != b.tail
    ensures IndicesOk(b.(front := Bump(b.front, |b.data|)))
    ensures Elems(b) == [b.data[b.front]] + Elems(b.(front := Bump(b.front, |b.data|)))
  {
    ElemsAt(b);
    ElemsAt(b.(front := Bump(b.front, |b.data|)));
  }

  lemma PushOrdered<T>(b: Block<T>)
    requires Ordered(b) && Bump(b.tail, |b.data|) != b.localFront
    ensures Ordered(b.(tail := Bump(b.tail, |b.data|))) && Bump(b.tail, |b.data|) != b.front
  {}

  lemma PopOrdered<T>(b: Block<T>)
    requires Ordered(b) && b.front != b.localTail
    ensures Ordered(b.(front := Bump(b.front, |b.data|))) && b.front != b.tail
  {}

  lemma RefreshFrontOrdered<T>(b: Block<T>)
    requires Ordered(b)
    ensures Ordered(b.(localFront := b.front))
  {}

  lemma RefreshTailOrdered<T>(b: Block<T>)
    requires Ordered(b)
    ensures Ordered(b.(localTail := b.tail))
  {}

  lemma FullIff<T>(b: Block<T>)
    requires Ordered(b)
    ensures Full(b) <==> Bump(b.tail, |b.data|) == b.front
  {}

  lemma ElemsWrite<T>(b: Block<T>, x: T)
    requires Ordered(b)
    ensures Ordered(b.(data := b.data[b.tail := x]))
    ensures Elems(b.(data := b.data[b.tail := x])) == Elems(b)
  {
    ElemsAt(b);
    ElemsAt(b.(data := b.data[b.tail := x]));
  }

  // ---------- the ring ----------

  /** What the two threads together know of the queue.  `ring` lists all blocks in link order from
      the front block and `pos` is its inverse; `bs` are the blocks themselves and `el` what each of
      them holds, in the same order; the tail block is number `k`. */
  datatype View<T> = View(ring: seq<nat>, pos: map<nat, nat>, k: nat, bs: seq<Block<T>>, el: seq<seq<T>>)

  function Successor(ring: seq<nat>, i: nat): nat
    requires i < |ring|
  {
    ring[Bump(i, |ring|)]
  }

  /** `ring` names every block exactly once, and the blocks it names are `bs`. */
  ghost predicate Named<T>(blocks: seq<Block<T>>, ring: seq<nat>, pos: map<nat, nat>, bs: seq<Block<T>>) {
    && |ring| == |bs| == |blocks|
    && (forall i :: 0 <= i < |ring| ==> ring[i] < |blocks| && ring[i] in pos && pos[ring[i]] == i)
    && (forall i :: 0 <= i < |ring| ==> blocks[ring[i]] == bs[i])
    && (forall b :: 0 <= b < |blocks| ==> IndicesOk(blocks[b]) && blocks[b].next < |blocks|)
  }

  /** The `next` pointers run round the ring. */
  ghost predicate Linked<T>(ring: seq<nat>, bs: seq<Block<T>>)
    requires |ring| == |bs|
  {
    forall i {:trigger Successor(ring, i)} :: 0 <= i < |ring| ==> bs[i].next == Successor(ring, i)
  }

  /** The memory is the one the view describes: one ring through all blocks. */
  ghost predicate Rep<T>(m: Mem<T>, v: View<T>) {
    && Named(m.blocks, v.ring, v.pos, v.bs) && Linked(v.ring, v.bs)
    && v.k < |v.ring| && v.ring[0] == m.frontBlock && v.ring[v.k] == m.tailBlock
  }

  ghost predicate AllOrdered<T>(bs: seq<Block<T>>) {
    forall i {:trigger Ordered(bs[i])} :: 0 <= i < |bs| ==> Ordered(bs[i])
  }

  ghost predicate Holds<T>(bs: seq<Block<T>>, el: seq<seq<T>>) {
    |bs| == |el| && forall i :: 0 <= i < |bs| ==> IndicesOk(bs[i]) && Elems(bs[i]) == el[i]
  }

  /** Blocks after the front one up to the tail hold elements, those strictly between are full, and
      the ones beyond the tail are empty, except for a block about to be published. */
  ghost predicate Levels<T>(k: nat, bs: seq<Block<T>>, el: seq<seq<T>>, pending: bool)
    requires k < |bs| == |el|
  {
    && (forall i :: 0 < i <= k ==> el[i] != [])
    && (forall i :: 0 < i < k ==> |el[i]| + 1 == |bs[i].data|)
    && (forall i :: k < i < |bs| && !(pending && i == k + 1) ==> el[i] == [])
  }

  ghost predicate Good<T>(v: View<T>, pending: bool) {
    v.k < |v.bs| == |v.el| && AllOrdered(v.bs) && Holds(v.bs, v.el) && Levels(v.k, v.bs, v.el, pending)
  }

  // ---------- what each thread knows at each of its program points ----------

  /** Once the producer has seen its tail block full, that block stays full until the consumer
      reaches it. */
  ghost predicate Sealed<T>(v: View<T>)
    requires v.k < |v.bs| == |v.el|
  {
    v.k > 0 ==> |v.el[v.k]| + 1 == |v.bs[v.k].data|
  }

  /** A free block lies beyond the tail, and it is `tn`. */
  ghost predicate FreeNext<T>(v: View<T>, tn: nat)
    requires v.k < |v.bs| == |v.el| == |v.ring|
  {
    Sealed(v) && v.k + 1 < |v.ring| && tn == v.ring[v.k + 1]
  }

  ghost predicate FreshOk<T>(b: Block<T>, x: T) {
    Ordered(b) && Elems(b) == [x]
  }

  ghost predicate ProducerOk<T>(v: View<T>, p: Producer<T>)
    requires v.k < |v.bs| == |v.el| == |v.ring|
  {
    var tail, tailId := v.bs[v.k], v.ring[v.k];
    match p
    case PIdle(_) => true
    case PLoadTailBlock(_, _) => true
    case PLoadTail(_, _, tb) => tb == tailId
    case PLoadFront(_, _, tb, bt) => tb == tailId && bt == tail.tail
    case PWrite(_, tb, bt) => tb == tailId && bt == tail.tail && Bump(bt, |tail.data|) != tail.localFront
    case PStoreTail(x, tb, bt) =>
      && tb == tailId && bt == tail.tail < |tail.data| && Bump(bt, |tail.data|) != tail.localFront
      && tail.data[bt] == x
    case PLoadNext(_, _, tb) => tb == tailId && Sealed(v)
    case PLoadFrontBlock(_, _, tb, nx) => tb == tailId && Sealed(v) && nx == tail.next
    case PReloadNext(_, tb) => tb == tailId && FreeNext(v, tail.next)
    case PNextFront(_, tn) => FreeNext(v, tn)
    case PNextTail(_, tn, nf) => FreeNext(v, tn) && nf == v.bs[v.k + 1].front
    case PNextWrite(_, tn, nt) =>
      FreeNext(v, tn) && nt == v.bs[v.k + 1].tail == v.bs[v.k + 1].front == v.bs[v.k + 1].localFront
    case PNextStoreTail(x, tn, nt) =>
      && FreeNext(v, tn) && nt == v.bs[v.k + 1].tail == v.bs[v.k + 1].front == v.bs[v.k + 1].localFront
      && nt < |v.bs[v.k + 1].data| && v.bs[v.k + 1].data[nt] == x
    case PAlloc(_, tb) => tb == tailId && Sealed(v)
    case PLinkNew(x, tb, newBlock) => tb == tailId && Sealed(v) && FreshOk(newBlock, x)
    case PStoreNext(x, tb, newBlock) =>
      tb == tailId && Sealed(v) && FreshOk(newBlock, x) && newBlock.next == tail.next
    case PPublish(x, tn) => FreeNext(v, tn) && v.el[v.k + 1] == [x]
  }

  /** The front block is drained and another one follows it. */
  ghost predicate Leaving<T>(v: View<T>)
    requires v.k < |v.bs| == |v.el|
  {
    v.k >= 1 && v.el[0] == []
  }

  ghost predicate ConsumerOk<T>(v: View<T>, c: Consumer<T>)
    requires v.k < |v.bs| == |v.el| == |v.ring|
  {
    var front, frontId := v.bs[0], v.ring[0];
    match c
    case CIdle(_) => true
    case CLoadFrontBlock => true
    case CLoadFront(fb) => fb == frontId
    case CLoadTail(fb, bf) => fb == frontId && bf == front.front
    case CLoadTailBlock(fb) => fb == frontId
    case CReloadFrontBlock => v.k >= 1
    case CReloadTail(fb) => fb == frontId && v.k >= 1
    case CReloadFront(fb, bt) => fb == frontId && v.k >= 1 && bt == front.localTail == front.tail
    case CRead(fb, bf) => fb == frontId && bf == front.front != front.localTail
    case CStoreFront(fb, bf, x) =>
      fb == frontId && bf == front.front != front.localTail && bf < |front.data| && x == front.data[bf]
    case CLoadNext(fb) => fb == frontId && Leaving(v)
    case CNextFront(nb) => Leaving(v) && nb == v.ring[1]
    case CNextTail(nb, nf) => Leaving(v) && nb == v.ring[1] && nf == v.bs[1].front
    case CStoreFrontBlock(nb, nf) => Leaving(v) && nb == v.ring[1] && nf == v.bs[1].front != v.bs[1].localTail
  }

  // ---------- the invariant ----------

  ghost predicate InvAt<T>(s: State<T>, v: View<T>) {
    && !s.failed && s.largest >= 2 && s.maxBlock >= 2
    && Rep(s.m, v) && Good(v, s.p.PPublish?)
    && ProducerOk(v, s.p) && ConsumerOk(v, s.c)
    && s.enq == s.deq + Flatten(v.el[..v.k + 1])
  }

  ghost predicate Inv<T(!new)>(s: State<T>) { exists v :: InvAt(s, v) }

  lemma InvInRange<T>(s: State<T>, v: View<T>)
    requires InvAt(s, v)
    ensures InRange(s)
  {}

  // ---------- changing one block ----------

  lemma RepSet<T>(m: Mem<T>, v: View<T>, i: nat, b: Block<T>, el: seq<seq<T>>)
    requires Rep(m, v) && i < |v.ring| && IndicesOk(b) && b.next == v.bs[i].next
    ensures Rep(SetBlock(m, v.ring[i], b), v.(bs := v.bs[i := b], el := el))
  {}

  lemma FlattenPushAt<T>(el: seq<seq<T>>, k: nat, x: T)
    requires k < |el|
    ensures Flatten(el[k := el[k] + [x]][..k + 1]) == Flatten(el[..k + 1]) + [x]
  {}

  lemma {:induction false} FlattenPop<T>(xs: seq<seq<T>>)
    requires xs != [] && xs[0] != []
    ensures Flatten(xs) == [xs[0][0]] + Flatten(xs[0 := xs[0][1..]])
  {
    if |xs| > 1 {
      var ys := xs[..|xs| - 1];
      FlattenPop(ys);
      assert xs[0 := xs[0][1..]][..|xs| - 1] == ys[0 := ys[0][1..]];
    }
  }

  lemma FlattenPopAt<T>(el: seq<seq<T>>, k: nat)
    requires k < |el| && el[0] != []
    ensures Flatten(el[..k + 1]) == [el[0][0]] + Flatten(el[0 := el[0][1..]][..k + 1])
  {
    FlattenPop(el[..k + 1]);
    assert el[0 := el[0][1..]][..k + 1] == el[..k + 1][0 := el[0][1..]];
  }

  lemma {:induction false} FlattenTail<T>(xs: seq<seq<T>>)
    requires xs != [] && xs[0] == []
    ensures Flatten(xs) == Flatten(xs[1..])
  {
    if |xs| > 1 {
      FlattenTail(xs[..|xs| - 1]);
      assert xs[..|xs| - 1][1..] == xs[1..][..|xs| - 2];
    }
  }

  // ---------- what one thread's steps leave alone for the other ----------

  /** The part of the view the consumer relies on, kept from `v` to `w`. */
  ghost predicate ConsumerFrame<T>(v: View<T>, w: View<T>)
    requires v.k < |v.bs| == |v.el| == |v.ring| && w.k < |w.bs| == |w.el| == |w.ring|
  {
    var f, g := v.bs[0], w.bs[0];
    && w.ring[0] == v.ring[0]
    && g.front == f.front && g.localTail == f.localTail && |g.data| == |f.data|
    && (f.front != f.localTail && f.front < |f.data| ==> g.data[f.front] == f.data[f.front])
    && (v.k >= 1 ==>
          && w.k >= 1 && g.tail == f.tail && w.el[0] == v.el[0] && w.ring[1] == v.ring[1]
          && w.bs[1].front == v.bs[1].front && w.bs[1].localTail == v.bs[1].localTail)
  }

  lemma ConsumerStable<T>(v: View<T>, w: View<T>, c: Consumer<T>)
    requires v.k < |v.bs| == |v.el| == |v.ring| && w.k < |w.bs| == |w.el| == |w.ring|
    requires ConsumerOk(v, c) && ConsumerFrame(v, w)
    ensures ConsumerOk(w, c)
  {}

  /** The part of the view the producer relies on, kept from `v` to `w`. */
  ghost predicate ProducerFrame<T>(v: View<T>, w: View<T>)
    requires v.k < |v.bs| == |v.el| == |v.ring| && w.k < |w.bs| == |w.el| == |w.ring|
  {
    var t, u := v.bs[v.k], w.bs[w.k];
    && w.ring[w.k] == v.ring[v.k]
    && u.tail == t.tail && u.localFront == t.localFront && u.data == t.data && u.next == t.next
    && (w.k > 0 ==> v.k > 0 && w.el[w.k] == v.el[v.k])
    && (v.k + 1 < |v.ring| ==>
          && w.k + 1 < |w.ring| && w.ring[w.k + 1] == v.ring[v.k + 1]
          && w.bs[w.k + 1] == v.bs[v.k + 1] && w.el[w.k + 1] == v.el[v.k + 1])
  }

  lemma ProducerStable<T>(v: View<T>, w: View<T>, p: Producer<T>)
    requires v.k < |v.bs| == |v.el| == |v.ring| && w.k < |w.bs| == |w.el| == |w.ring|
    requires ProducerOk(v, p) && ProducerFrame(v, w)
    ensures ProducerOk(w, p)
  {}

  // ---------- producer steps ----------

  lemma Lengths<T>(m: Mem<T>, v: View<T>, pending: bool)
    requires Rep(m, v) && Good(v, pending)
    ensures v.k < |v.ring| == |v.bs| == |v.el|
  {}

  lemma AppendAssoc<T>(a: seq<T>, b: seq<T>, x: T)
    ensures a + b + [x] == a + (b + [x])
  {}

  lemma PrependAssoc<T>(a: seq<T>, x: T, b: seq<T>)
    ensures a + ([x] + b) == a + [x] + b
  {}

  /** A producer step carried out on the view keeps the invariant. */
  lemma ProducerMoves<T>(s: State<T>, v: View<T>, m: Mem<T>, p: Producer<T>, w: View<T>)
    requires InvAt(s, v) && Rep(m, w) && Good(w, p.PPublish?) && ConsumerFrame(v, w) && ProducerOk(w, p)
    requires w.el[..w.k + 1] == v.el[..v.k + 1]
    ensures InvAt(s.(m := m, p := p), w)
  {}

  /** Likewise for a step that makes its element visible. */
  lemma ProducerCommits<T>(s: State<T>, v: View<T>, m: Mem<T>, x: T, w: View<T>)
    requires InvAt(s, v) && Rep(m, w) && Good(w, false) && ConsumerFrame(v, w)
    requires Flatten(w.el[..w.k + 1]) == Flatten(v.el[..v.k + 1]) + [x]
    ensures InvAt(s.(m := m, enq := s.enq + [x], p := PIdle(true)), w)
  {
    hide AllOrdered, Holds, Levels, Linked, Named, Flatten, Elems;
    Lengths(s.m, v, s.p.PPublish?);
    Lengths(m, w, false);
    AppendAssoc(s.deq, Flatten(v.el[..v.k + 1]), x);
    ConsumerStable(v, w, s.c);
  }

  lemma AllOrderedSet<T>(bs: seq<Block<T>>, i: nat, b: Block<T>)
    requires AllOrdered(bs) && i < |bs| && Ordered(b)
    ensures AllOrdered(bs[i := b])
  {}

  /** Replacing the tail block by one that differs in what only the producer sees. */
  lemma ReplaceTail<T>(v: View<T>, b: Block<T>) returns (w: View<T>)
    requires Good(v, false) && |v.ring| == |v.bs| && Ordered(b)
    requires var t := v.bs[v.k];
      b.front == t.front && b.tail == t.tail && b.localTail == t.localTail && |b.data| == |t.data|
      && Elems(b) == Elems(t) && (t.front != t.localTail ==> b.data[t.front] == t.data[t.front])
    ensures w == v.(bs := v.bs[v.k := b]) && Good(w, false) && ConsumerFrame(v, w)
  {
    w := v.(bs := v.bs[v.k := b]);
    AllOrderedSet(v.bs, v.k, b);
  }

  lemma RefreshFrontView<T>(v: View<T>, p: Producer<T>) returns (w: View<T>, q: Producer<T>)
    requires Good(v, false) && |v.ring| == |v.bs| && p.PLoadFront? && ProducerOk(v, p)
    ensures w == v.(bs := v.bs[v.k := v.bs[v.k].(localFront := v.bs[v.k].front)]) && Good(w, false)
    ensures ConsumerFrame(v, w)
    ensures q == (if Bump(p.bt, |v.bs[v.k].data|) != v.bs[v.k].front then PWrite(p.x, p.tb, p.bt) else PLoadNext(p.x, p.mode, p.tb))
    ensures ProducerOk(w, q)
  {
    var b := v.bs[v.k];
    assert Ordered(v.bs[v.k]);
    RefreshFrontOrdered(b);
    FullIff(b);
    w := ReplaceTail(v, b.(localFront := b.front));
    q := if Bump(p.bt, |b.data|) != b.front then PWrite(p.x, p.tb, p.bt) else PLoadNext(p.x, p.mode, p.tb);
  }

  lemma ProducerRefreshFront<T>(s: State<T>, v: View<T>, raw: seq<T>) returns (w: View<T>)
    requires InvAt(s, v) && s.p.PLoadFront? && InRange(s)
    ensures InvAt(ProducerStep(s, raw), w)
  {
    hide Good, Flatten, ConsumerFrame;
    var q;
    w, q := RefreshFrontView(v, s.p);
    RepSet(s.m, v, v.k, w.bs[v.k], v.el);
    ProducerMoves(s, v, SetBlock(s.m, v.ring[v.k], w.bs[v.k]), q, w);
  }

  lemma WriteView<T>(v: View<T>, p: Producer<T>) returns (w: View<T>)
    requires Good(v, false) && |v.ring| == |v.bs| && p.PWrite? && ProducerOk(v, p)
    ensures var b := v.bs[v.k];
      w == v.(bs := v.bs[v.k := b.(data := b.data[b.tail := p.x])]) && Good(w, false) && ConsumerFrame(v, w)
    ensures ProducerOk(w, PStoreTail(p.x, p.tb, p.bt))
  {
    var b := v.bs[v.k];
    assert Ordered(v.bs[v.k]);
    ElemsWrite(b, p.x);
    if b.front != b.localTail { PopOrdered(b); }
    w := ReplaceTail(v, b.(data := b.data[b.tail := p.x]));
  }

  lemma ProducerWrite<T>(s: State<T>, v: View<T>, raw: seq<T>) returns (w: View<T>)
    requires InvAt(s, v) && s.p.PWrite? && InRange(s)
    ensures InvAt(ProducerStep(s, raw), w)
  {
    hide Good, Flatten, ConsumerFrame;
    w := WriteView(v, s.p);
    RepSet(s.m, v, v.k, w.bs[v.k], v.el);
    ProducerMoves(s, v, SetBlock(s.m, v.ring[v.k], w.bs[v.k]), PStoreTail(s.p.x, s.p.tb, s.p.bt), w);
  }

  lemma PushTail<T>(v: View<T>) returns (w: View<T>)
    requires Good(v, false) && |v.ring| == |v.bs|
    requires Bump(v.bs[v.k].tail, |v.bs[v.k].data|) != v.bs[v.k].localFront
    ensures var b := v.bs[v.k];
      && w == v.(bs := v.bs[v.k := b.(tail := Bump(b.tail, |b.data|))], el := v.el[v.k := v.el[v.k] + [b.data[b.tail]]])
      && IndicesOk(w.bs[v.k]) && Good(w, false) && ConsumerFrame(v, w)
  {
    var b := v.bs[v.k];
    assert Ordered(v.bs[v.k]);
    PushOrdered(b);
    ElemsPush(b);
    w := v.(bs := v.bs[v.k := b.(tail := Bump(b.tail, |b.data|))], el := v.el[v.k := v.el[v.k] + [b.data[b.tail]]]);
    AllOrderedSet(v.bs, v.k, w.bs[v.k]);
  }

  lemma ProducerStoreTail<T>(s: State<T>, v: View<T>, raw: seq<T>) returns (w: View<T>)
    requires InvAt(s, v) && s.p.PStoreTail? && InRange(s)
    ensures InvAt(ProducerStep(s, raw), w)
  {
    hide AllOrdered, Holds, Levels, Linked, Flatten, Elems;
    w := PushTail(v);
    RepSet(s.m, v, v.k, w.bs[v.k], w.el);
    FlattenPushAt(v.el, v.k, s.p.x);
    ProducerCommits(s, v, SetBlock(s.m, v.ring[v.k], w.bs[v.k]), s.p.x, w);
  }

  /** Replacing the free block beyond the tail, which the consumer does not look at. */
  lemma ReplaceFree<T>(v: View<T>, b: Block<T>, pending: bool) returns (w: View<T>)
    requires Good(v, false) && |v.ring| == |v.bs| && v.k + 1 < |v.bs| && Ordered(b)
    requires pending || Elems(b) == []
    ensures w == v.(bs := v.bs[v.k + 1 := b], el := v.el[v.k + 1 := Elems(b)]) && Good(w, pending)
    ensures ConsumerFrame(v, w)
    ensures w.el[..v.k + 1] == v.el[..v.k + 1]
  {
    w := v.(bs := v.bs[v.k + 1 := b], el := v.el[v.k + 1 := Elems(b)]);
    AllOrderedSet(v.bs, v.k + 1, b);
  }

  /** The free block's `localFront` is refreshed; the block is empty, so its front is its tail. */
  lemma RefreshFree<T>(v: View<T>) returns (w: View<T>)
    requires Good(v, false) && |v.ring| == |v.bs| && v.k + 1 < |v.bs|
    ensures w == v.(bs := v.bs[v.k + 1 := v.bs[v.k + 1].(localFront := v.bs[v.k + 1].front)])
    ensures Good(w, false) && ConsumerFrame(v, w) && v.bs[v.k + 1].front == v.bs[v.k + 1].tail
  {
    var b := v.bs[v.k + 1];
    assert Ordered(v.bs[v.k + 1]);
    RefreshFrontOrdered(b);
    assert |Elems(b)| == |v.el[v.k + 1]| == 0;
    assert Elems(b.(localFront := b.front)) == [];
    w := ReplaceFree(v, b.(localFront := b.front), false);
    assert w.el == v.el;
  }

  lemma ProducerNextFront<T>(s: State<T>, v: View<T>, raw: seq<T>) returns (w: View<T>)
    requires InvAt(s, v) && s.p.PNextFront? && InRange(s)
    ensures InvAt(ProducerStep(s, raw), w)
  {
    hide Good, Flatten, ConsumerFrame;
    w := RefreshFree(v);
    RepSet(s.m, v, v.k + 1, w.bs[v.k + 1], v.el);
    ProducerMoves(s, v, SetBlock(s.m, v.ring[v.k + 1], w.bs[v.k + 1]), PNextTail(s.p.x, s.p.tn, v.bs[v.k + 1].front), w);
  }

  /** The block to be reused is empty, so the assertion in the source holds. */
  lemma ProducerNextTail<T>(s: State<T>, v: View<T>, raw: seq<T>) returns (w: View<T>)
    requires InvAt(s, v) && s.p.PNextTail? && InRange(s)
    ensures InvAt(ProducerStep(s, raw), w)
  {
    hide Good, Flatten, ConsumerFrame;
    w := RefreshFree(v);
    RepSet(s.m, v, v.k + 1, w.bs[v.k + 1], v.el);
    ProducerMoves(s, v, SetBlock(s.m, v.ring[v.k + 1], w.bs[v.k + 1]), PNextWrite(s.p.x, s.p.tn, v.bs[v.k + 1].tail), w);
  }

  lemma NextWriteView<T>(v: View<T>, p: Producer<T>) returns (w: View<T>)
    requires Good(v, false) && |v.ring| == |v.bs| && p.PNextWrite? && ProducerOk(v, p)
    ensures var b := v.bs[v.k + 1];
      w == v.(bs := v.bs[v.k + 1 := b.(data := b.data[b.tail := p.x])]) && Good(w, false) && ConsumerFrame(v, w)
    ensures ProducerOk(w, PNextStoreTail(p.x, p.tn, p.nt))
  {
    hide Flatten, Elems;
    var b := v.bs[v.k + 1];
    assert Ordered(v.bs[v.k + 1]);
    ElemsWrite(b, p.x);
    assert v.el[v.k + 1] == [];
    w := ReplaceFree(v, b.(data := b.data[b.tail := p.x]), false);
    assert w.el == v.el;
  }

  lemma ProducerNextWrite<T>(s: State<T>, v: View<T>, raw: seq<T>) returns (w: View<T>)
    requires InvAt(s, v) && s.p.PNextWrite? && InRange(s)
    ensures InvAt(ProducerStep(s, raw), w)
  {
    hide Good, Flatten, ConsumerFrame;
    w := NextWriteView(v, s.p);
    RepSet(s.m, v, v.k + 1, w.bs[v.k + 1], v.el);
    ProducerMoves(s, v, SetBlock(s.m, v.ring[v.k + 1], w.bs[v.k + 1]), PNextStoreTail(s.p.x, s.p.tn, s.p.nt), w);
  }

  lemma NextPushView<T>(v: View<T>, p: Producer<T>) returns (w: View<T>)
    requires Good(v, false) && |v.ring| == |v.bs| && p.PNextStoreTail? && ProducerOk(v, p)
    ensures var b := v.bs[v.k + 1];
      && w == v.(bs := v.bs[v.k + 1 := b.(tail := Bump(b.tail, |b.data|))], el := v.el[v.k + 1 := [p.x]])
      && Good(w, true) && ConsumerFrame(v, w) && w.el[..v.k + 1] == v.el[..v.k + 1]
    ensures ProducerOk(w, PPublish(p.x, p.tn))
  {
    hide Flatten, Elems;
    var b := v.bs[v.k + 1];
    assert Ordered(v.bs[v.k + 1]);
    PushOrdered(b);
    ElemsPush(b);
    assert v.el[v.k + 1] == [];
    assert Elems(b.(tail := Bump(b.tail, |b.data|))) == [p.x];
    w := ReplaceFree(v, b.(tail := Bump(b.tail, |b.data|)), true);
  }

  lemma ProducerNextStoreTail<T>(s: State<T>, v: View<T>, raw: seq<T>) returns (w: View<T>)
    requires InvAt(s, v) && s.p.PNextStoreTail? && InRange(s)
    ensures InvAt(ProducerStep(s, raw), w)
  {
    hide Good, Flatten, ConsumerFrame;
    w := NextPushView(v, s.p);
    RepSet(s.m, v, v.k + 1, w.bs[v.k + 1], w.el);
    ProducerMoves(s, v, SetBlock(s.m, v.ring[v.k + 1], w.bs[v.k + 1]), PPublish(s.p.x, s.p.tn), w);
  }

  lemma PublishView<T>(v: View<T>, p: Producer<T>) returns (w: View<T>)
    requires Good(v, true) && |v.ring| == |v.bs| && p.PPublish? && ProducerOk(v, p)
    ensures w == v.(k := v.k + 1) && w.k < |w.bs| && Good(w, false) && ConsumerFrame(v, w)
    ensures Flatten(w.el[..w.k + 1]) == Flatten(v.el[..v.k + 1]) + [p.x]
  {
    hide Elems;
    w := v.(k := v.k + 1);
    assert v.el[..v.k + 2][..v.k + 1] == v.el[..v.k + 1];
  }

  lemma ProducerPublish<T>(s: State<T>, v: View<T>, raw: seq<T>) returns (w: View<T>)
    requires InvAt(s, v) && s.p.PPublish? && InRange(s)
    ensures InvAt(ProducerStep(s, raw), w)
  {
    hide Good, Flatten, ConsumerFrame;
    w := PublishView(v, s.p);
    ProducerCommits(s, v, s.m.(tailBlock := s.p.tn), s.p.x, w);
  }

  /** `xs` with `x` inserted in front of number `i`. */
  function Insert<A>(xs: seq<A>, i: nat, x: A): seq<A>
    requires i <= |xs|
  {
    seq(|xs| + 1, j requires 0 <= j <= |xs| => if j < i then xs[j] else if j == i then x else xs[j - 1])
  }

  /** The view with a new block linked in after the tail. */
  ghost function Inserted<T>(v: View<T>, id: nat, b: Block<T>): View<T>
    requires v.k < |v.ring| == |v.bs| == |v.el| && IndicesOk(b)
  {
    View(Insert(v.ring, v.k + 1, id),
         map r | r in v.pos.Keys + {id} :: if r == id then v.k + 1 else if v.pos[r] <= v.k then v.pos[r] else v.pos[r] + 1,
         v.k,
         Insert(v.bs[v.k := v.bs[v.k].(next := id)], v.k + 1, b),
         Insert(v.el, v.k + 1, Elems(b)))
  }

  lemma InsertNamed<T>(blocks: seq<Block<T>>, v: View<T>, b: Block<T>)
    requires Named(blocks, v.ring, v.pos, v.bs) && |v.el| == |v.bs| && v.k < |v.ring|
    requires IndicesOk(b) && b.next < |blocks|
    ensures
      var t, id := v.ring[v.k], |blocks|;
      var w := Inserted(v, id, b);
      Named(blocks[t := blocks[t].(next := id)] + [b], w.ring, w.pos, w.bs)
  {}

  lemma InsertLinked<T>(v: View<T>, id: nat, b: Block<T>)
    requires |v.ring| == |v.bs| == |v.el| && v.k < |v.ring| && Linked(v.ring, v.bs)
    requires IndicesOk(b) && b.next == v.bs[v.k].next
    ensures Linked(Inserted(v, id, b).ring, Inserted(v, id, b).bs)
  {
    var w := Inserted(v, id, b);
    forall i | 0 <= i < |w.ring| ensures w.bs[i].next == Successor(w.ring, i) {
      var j := if i <= v.k then i else i - 1;
      assert v.bs[j].next == Successor(v.ring, j);
    }
  }

  lemma InsertOrdered<T>(v: View<T>, id: nat, b: Block<T>)
    requires Good(v, false) && |v.ring| == |v.bs| && Ordered(b)
    ensures AllOrdered(Inserted(v, id, b).bs)
  {
    var w := Inserted(v, id, b);
    var t := v.bs[v.k].(next := id);
    assert Ordered(t) by { assert Ordered(v.bs[v.k]); }
    AllOrderedSet(v.bs, v.k, t);
    var cs := v.bs[v.k := t];
    forall i | 0 <= i < |w.bs| ensures Ordered(w.bs[i]) {
      var j := if i <= v.k then i else i - 1;
      assert Ordered(cs[j]);
    }
  }

  lemma InsertHolds<T>(v: View<T>, id: nat, b: Block<T>)
    requires v.k < |v.bs| == |v.el| == |v.ring| && Holds(v.bs, v.el) && IndicesOk(b)
    ensures Holds(Inserted(v, id, b).bs, Inserted(v, id, b).el)
  {}

  lemma InsertLevels<T>(v: View<T>, id: nat, b: Block<T>)
    requires v.k < |v.bs| == |v.el| == |v.ring| && Levels(v.k, v.bs, v.el, false) && IndicesOk(b)
    ensures Levels(v.k, Inserted(v, id, b).bs, Inserted(v, id, b).el, true) && ConsumerFrame(v, Inserted(v, id, b))
  {}

  lemma InsertView<T>(v: View<T>, p: Producer<T>, id: nat) returns (w: View<T>)
    requires Good(v, false) && |v.ring| == |v.bs| && p.PStoreNext? && ProducerOk(v, p)
    ensures w == Inserted(v, id, p.newBlock) && Good(w, true) && ConsumerFrame(v, w)
    ensures w.el[..w.k + 1] == v.el[..v.k + 1]
    ensures ProducerOk(w, PPublish(p.x, id))
  {
    w := Inserted(v, id, p.newBlock);
    InsertOrdered(v, id, p.newBlock);
    InsertHolds(v, id, p.newBlock);
    InsertLevels(v, id, p.newBlock);
    assert w.el[v.k] == v.el[v.k];
  }

  lemma ProducerStoreNext<T>(s: State<T>, v: View<T>, raw: seq<T>) returns (w: View<T>)
    requires InvAt(s, v) && s.p.PStoreNext? && InRange(s)
    ensures InvAt(ProducerStep(s, raw), w)
  {
    var id, t := |s.m.blocks|, s.m.tailBlock;
    w := InsertView(v, s.p, id);
    InsertNamed(s.m.blocks, v, s.p.newBlock);
    InsertLinked(v, id, s.p.newBlock);
    var m' := s.m.(blocks := s.m.blocks[t := s.m.blocks[t].(next := id)] + [s.p.newBlock]);
    assert Rep(m', w);
    ProducerMoves(s, v, m', PPublish(s.p.x, id), w);
  }

  lemma FreshNext<T>(b: Block<T>, x: T, next: nat)
    requires FreshOk(b, x)
    ensures FreshOk(b.(next := next), x)
  {}

  /** Steps of the producer that only read: what they learn. */
  lemma ProducerLearns<T>(s: State<T>, v: View<T>, raw: seq<T>)
    requires InvAt(s, v) && InRange(s)
    requires s.p.PLoadTailBlock? || s.p.PLoadNext? || s.p.PLinkNew?
    ensures InvAt(ProducerStep(s, raw), v)
  {
    hide AllOrdered, Holds, Levels, Linked, Flatten;
    assert s.m.blocks[v.ring[v.k]] == v.bs[v.k];
    if s.p.PLinkNew? { FreshNext(s.p.newBlock, s.p.x, v.bs[v.k].next); }
    hide Elems, Ordered, Named;
    ProducerMoves(s, v, s.m, ProducerStep(s, raw).p, v);
  }

  lemma ProducerSeesTail<T>(s: State<T>, v: View<T>, raw: seq<T>)
    requires InvAt(s, v) && InRange(s) && s.p.PLoadTail?
    ensures InvAt(ProducerStep(s, raw), v)
  {}

  /** If the link of the tail block does not lead to the front block, it leads to a free one. */
  lemma NextIsFree<T>(v: View<T>)
    requires |v.ring| == |v.bs| == |v.el| && v.k < |v.ring| && Linked(v.ring, v.bs)
    ensures v.k + 1 < |v.ring| ==> v.bs[v.k].next == v.ring[v.k + 1]
    ensures v.bs[v.k].next != v.ring[0] ==> v.k + 1 < |v.ring|
  {
    assert v.bs[v.k].next == Successor(v.ring, v.k);
  }

  /** The block the consumer is about to access. */
  function BlockOf<T>(c: Consumer<T>): Option<nat> {
    match c
    case CIdle(_) => None
    case CLoadFrontBlock => None
    case CReloadFrontBlock => None
    case CNextFront(nb) => Some(nb)
    case CNextTail(nb, _) => Some(nb)
    case CStoreFrontBlock(nb, _) => Some(nb)
    case _ => Some(c.fb)
  }

  lemma EmptyIsEven<T>(b: Block<T>)
    requires IndicesOk(b) && Elems(b) == []
    ensures b.front == b.tail
  {
    assert |Elems(b)| == 0;
  }

  /** While no block is being published, the block after the tail, unless it is the front block, is empty
      and the consumer is not at it: the producer may fill it. */
  lemma FreeBlock<T>(s: State<T>, v: View<T>)
    requires InvAt(s, v) && !s.p.PPublish? && s.m.tailBlock < |s.m.blocks|
    requires s.m.blocks[s.m.tailBlock].next != s.m.frontBlock
    ensures var n := s.m.blocks[s.m.tailBlock].next;
      n < |s.m.blocks| && s.m.blocks[n].front == s.m.blocks[n].tail && BlockOf(s.c) != Some(n)
  {
    hide AllOrdered, Flatten, Elems, Ordered;
    Lengths(s.m, v, false);
    NextIsFree(v);
    assert s.m.blocks[v.ring[v.k]] == v.bs[v.k] && s.m.blocks[v.ring[v.k + 1]] == v.bs[v.k + 1];
    assert v.el[v.k + 1] == [] && Elems(v.bs[v.k + 1]) == v.el[v.k + 1];
    EmptyIsEven(v.bs[v.k + 1]);
    assert v.pos[v.ring[v.k + 1]] == v.k + 1 && v.pos[v.ring[0]] == 0 && (v.k >= 1 ==> v.pos[v.ring[1]] == 1);
  }

  lemma ProducerSeesFrontBlock<T>(s: State<T>, v: View<T>, raw: seq<T>)
    requires InvAt(s, v) && InRange(s) && (s.p.PLoadFrontBlock? || s.p.PReloadNext?)
    ensures InvAt(ProducerStep(s, raw), v)
  {
    hide AllOrdered, Holds, Levels, Linked, Flatten, Elems;
    Lengths(s.m, v, false);
    NextIsFree(v);
    assert s.m.blocks[v.ring[v.k]] == v.bs[v.k];
    hide Named;
    ProducerMoves(s, v, s.m, ProducerStep(s, raw).p, v);
  }

  lemma ProducerAllocates<T>(s: State<T>, v: View<T>, raw: seq<T>)
    requires InvAt(s, v) && s.p.PAlloc? && InRange(s)
    ensures InvAt(ProducerStep(s, raw), v)
  {
    if |raw| == NewBlockSize(s) {
      var b := Block(0, 1, 1, 0, 0, raw[0 := s.p.x]);
      ElemsAt(b);
      assert FreshOk(b, s.p.x);
      assert ProducerOk(v, PLinkNew(s.p.x, s.p.tb, b));
    }
  }

  lemma ProducerKeepsInv<T>(s: State<T>, v: View<T>, raw: seq<T>) returns (w: View<T>)
    requires InvAt(s, v) && InRange(s)
    ensures InvAt(ProducerStep(s, raw), w)
  {
    w := v;
    match s.p
    case PIdle(_) =>
    case PLoadFront(_, _, _, _) => w := ProducerRefreshFront(s, v, raw);
    case PWrite(_, _, _) => w := ProducerWrite(s, v, raw);
    case PStoreTail(_, _, _) => w := ProducerStoreTail(s, v, raw);
    case PNextFront(_, _) => w := ProducerNextFront(s, v, raw);
    case PNextTail(_, _, _) => w := ProducerNextTail(s, v, raw);
    case PNextWrite(_, _, _) => w := ProducerNextWrite(s, v, raw);
    case PNextStoreTail(_, _, _) => w := ProducerNextStoreTail(s, v, raw);
    case PPublish(_, _) => w := ProducerPublish(s, v, raw);
    case PStoreNext(_, _, _) => w := ProducerStoreNext(s, v, raw);
    case PAlloc(_, _) => ProducerAllocates(s, v, raw);
    case PLoadFrontBlock(_, _, _, _) => ProducerSeesFrontBlock(s, v, raw);
    case PLoadTail(_, _, _) => ProducerSeesTail(s, v, raw);
    case PReloadNext(_, _) => ProducerSeesFrontBlock(s, v, raw);
    case _ => ProducerLearns(s, v, raw);
  }

  // ---------- consumer steps ----------

  lemma ConsumerMoves<T>(s: State<T>, v: View<T>, m: Mem<T>, c: Consumer<T>, w: View<T>)
    requires InvAt(s, v) && Rep(m, w) && Good(w, s.p.PPublish?) && ProducerFrame(v, w) && ConsumerOk(w, c)
    requires Flatten(w.el[..w.k + 1]) == Flatten(v.el[..v.k + 1])
    ensures InvAt(s.(m := m, c := c), w)
  {
    hide AllOrdered, Holds, Levels, Linked, Named, Flatten, Elems;
    Lengths(s.m, v, s.p.PPublish?);
    Lengths(m, w, s.p.PPublish?);
    ProducerStable(v, w, s.p);
  }

  /** Refreshing the consumer's copy of the tail of block `i`, one of the first two. */
  lemma RefreshTail<T>(v: View<T>, pending: bool, i: nat) returns (w: View<T>)
    requires Good(v, pending) && |v.ring| == |v.bs| && i <= v.k && i <= 1
    ensures w == v.(bs := v.bs[i := v.bs[i].(localTail := v.bs[i].tail)]) && Good(w, pending) && ProducerFrame(v, w)
  {
    var b := v.bs[i];
    assert Ordered(v.bs[i]);
    RefreshTailOrdered(b);
    w := v.(bs := v.bs[i := b.(localTail := b.tail)]);
    AllOrderedSet(v.bs, i, w.bs[i]);
    ElemsAt(b);
    ElemsAt(w.bs[i]);
    assert Elems(w.bs[i]) == Elems(b);
  }

  lemma ConsumerLoadTail<T>(s: State<T>, v: View<T>) returns (w: View<T>)
    requires InvAt(s, v) && s.c.CLoadTail? && InRange(s)
    ensures InvAt(ConsumerStep(s), w)
  {
    hide AllOrdered, Holds, Levels, Linked, Flatten, Elems;
    w := RefreshTail(v, s.p.PPublish?, 0);
    RepSet(s.m, v, 0, w.bs[0], v.el);
    ConsumerMoves(s, v, SetBlock(s.m, v.ring[0], w.bs[0]), ConsumerStep(s).c, w);
  }

  lemma ConsumerReloadTail<T>(s: State<T>, v: View<T>) returns (w: View<T>)
    requires InvAt(s, v) && s.c.CReloadTail? && InRange(s)
    ensures InvAt(ConsumerStep(s), w)
  {
    hide AllOrdered, Holds, Levels, Linked, Flatten, Elems;
    w := RefreshTail(v, s.p.PPublish?, 0);
    RepSet(s.m, v, 0, w.bs[0], v.el);
    assert ConsumerOk(w, CReloadFront(s.c.fb, v.bs[0].tail));
    ConsumerMoves(s, v, SetBlock(s.m, v.ring[0], w.bs[0]), CReloadFront(s.c.fb, v.bs[0].tail), w);
  }

  lemma SecondHolds<T>(v: View<T>, pending: bool)
    requires Good(v, pending) && Leaving(v)
    ensures v.bs[1].front != v.bs[1].tail
  {}

  /** The block the consumer advances to holds an element, so the assertion in the source holds. */
  lemma ConsumerNextTail<T>(s: State<T>, v: View<T>) returns (w: View<T>)
    requires InvAt(s, v) && s.c.CNextTail? && InRange(s)
    ensures InvAt(ConsumerStep(s), w)
  {
    hide AllOrdered, Holds, Levels, Linked, Flatten, Elems;
    SecondHolds(v, s.p.PPublish?);
    w := RefreshTail(v, s.p.PPublish?, 1);
    RepSet(s.m, v, 1, w.bs[1], v.el);
    ConsumerMoves(s, v, SetBlock(s.m, v.ring[1], w.bs[1]), CStoreFrontBlock(s.c.nb, s.c.nf), w);
  }

  lemma PopFront<T>(v: View<T>, pending: bool) returns (w: View<T>)
    requires Good(v, pending) && |v.ring| == |v.bs| && v.bs[0].front != v.bs[0].localTail
    ensures var b := v.bs[0];
      && v.el[0] != [] && v.el[0][0] == b.data[b.front]
      && w == v.(bs := v.bs[0 := b.(front := Bump(b.front, |b.data|))], el := v.el[0 := v.el[0][1..]])
      && IndicesOk(w.bs[0]) && Good(w, pending) && ProducerFrame(v, w)
  {
    var b := v.bs[0];
    assert Ordered(v.bs[0]);
    PopOrdered(b);
    ElemsPop(b);
    assert Elems(b) == v.el[0];
    w := v.(bs := v.bs[0 := b.(front := Bump(b.front, |b.data|))], el := v.el[0 := v.el[0][1..]]);
    assert Elems(w.bs[0]) == w.el[0];
    AllOrderedSet(v.bs, 0, w.bs[0]);
  }

  lemma ConsumerTakes<T>(s: State<T>, v: View<T>, m: Mem<T>, x: T, w: View<T>)
    requires InvAt(s, v) && Rep(m, w) && Good(w, s.p.PPublish?) && ProducerFrame(v, w)
    requires Flatten(v.el[..v.k + 1]) == [x] + Flatten(w.el[..w.k + 1])
    ensures InvAt(s.(m := m, deq := s.deq + [x], c := CIdle(Some(x))), w)
  {
    hide AllOrdered, Holds, Levels, Linked, Named, Flatten, Elems;
    Lengths(s.m, v, s.p.PPublish?);
    Lengths(m, w, s.p.PPublish?);
    PrependAssoc(s.deq, x, Flatten(w.el[..w.k + 1]));
    ProducerStable(v, w, s.p);
  }

  lemma ConsumerStoreFront<T>(s: State<T>, v: View<T>) returns (w: View<T>)
    requires InvAt(s, v) && s.c.CStoreFront? && InRange(s)
    ensures InvAt(ConsumerStep(s), w)
  {
    hide AllOrdered, Holds, Levels, Linked, Elems;
    hide Flatten, ProducerFrame;
    w := PopFront(v, s.p.PPublish?);
    RepSet(s.m, v, 0, w.bs[0], w.el);
    FlattenPopAt(v.el, v.k);
    assert v.el[0][0] == s.c.x;
    ConsumerTakes(s, v, SetBlock(s.m, v.ring[0], w.bs[0]), s.c.x, w);
  }

  /** `xs` with its first element moved to the end. */
  function Rotate<A>(xs: seq<A>): seq<A>
    requires xs != []
  {
    seq(|xs|, j requires 0 <= j < |xs| => if j + 1 < |xs| then xs[j + 1] else xs[0])
  }

  ghost function Rotated<T>(v: View<T>): View<T>
    requires 0 < v.k < |v.ring| == |v.bs| == |v.el|
  {
    View(Rotate(v.ring),
         map r | r in v.pos.Keys :: if v.pos[r] == 0 then |v.ring| - 1 else v.pos[r] - 1,
         v.k - 1, Rotate(v.bs), Rotate(v.el))
  }

  lemma RotateRep<T>(m: Mem<T>, v: View<T>)
    requires Rep(m, v) && 0 < v.k && |v.el| == |v.bs|
    ensures Rep(m.(frontBlock := v.ring[1]), Rotated(v))
  {
    var w := Rotated(v);
    forall i | 0 <= i < |w.ring|
      ensures w.ring[i] < |m.blocks| && w.ring[i] in w.pos && w.pos[w.ring[i]] == i && m.blocks[w.ring[i]] == w.bs[i]
    {
      var j := if i + 1 < |v.ring| then i + 1 else 0;
      assert v.pos[v.ring[j]] == j;
    }
    forall i | 0 <= i < |w.ring| ensures w.bs[i].next == Successor(w.ring, i) {
      var j := if i + 1 < |v.ring| then i + 1 else 0;
      assert v.bs[j].next == Successor(v.ring, j);
    }
  }

  lemma RotateGood<T>(v: View<T>, pending: bool)
    requires Good(v, pending) && |v.ring| == |v.bs| && Leaving(v) && (pending ==> v.k + 1 < |v.ring|)
    ensures Good(Rotated(v), pending)
  {}

  lemma RotateFrame<T>(v: View<T>, c: Consumer<T>) returns (w: View<T>)
    requires v.k < |v.bs| == |v.el| == |v.ring| && c.CStoreFrontBlock? && ConsumerOk(v, c)
    ensures w == Rotated(v) && ProducerFrame(v, w) && ConsumerOk(w, CRead(c.nb, c.nf))
    ensures Flatten(w.el[..w.k + 1]) == Flatten(v.el[..v.k + 1])
  {
    w := Rotated(v);
    assert w.el[..w.k + 1] == v.el[..v.k + 1][1..];
    FlattenTail(v.el[..v.k + 1]);
  }

  lemma ConsumerStoreFrontBlock<T>(s: State<T>, v: View<T>) returns (w: View<T>)
    requires InvAt(s, v) && s.c.CStoreFrontBlock? && InRange(s)
    ensures InvAt(ConsumerStep(s), w)
  {
    hide AllOrdered, Holds, Levels, Linked, Named, Flatten, Elems;
    Lengths(s.m, v, s.p.PPublish?);
    w := RotateFrame(v, s.c);
    RotateRep(s.m, v);
    RotateGood(v, s.p.PPublish?);
    ConsumerMoves(s, v, s.m.(frontBlock := v.ring[1]), CRead(s.c.nb, s.c.nf), w);
  }

  /** Steps of the consumer that only read: what they learn. */
  lemma ConsumerLearns<T>(s: State<T>, v: View<T>)
    requires InvAt(s, v) && InRange(s)
    requires s.c.CLoadFrontBlock? || s.c.CLoadFront? || s.c.CLoadTailBlock? || s.c.CReloadFrontBlock? || s.c.CReloadFront?
          || s.c.CRead? || s.c.CLoadNext? || s.c.CNextFront?
    ensures InvAt(ConsumerStep(s), v)
  {
    assert v.bs[0].next == Successor(v.ring, 0);
    assert |Elems(v.bs[0])| == |v.el[0]|;
  }

  lemma ConsumerKeepsInv<T>(s: State<T>, v: View<T>) returns (w: View<T>)
    requires InvAt(s, v) && InRange(s)
    ensures InvAt(ConsumerStep(s), w)
  {
    w := v;
    match s.c
    case CIdle(_) =>
    case CLoadTail(_, _) => w := ConsumerLoadTail(s, v);
    case CReloadTail(_) => w := ConsumerReloadTail(s, v);
    case CNextTail(_, _) => w := ConsumerNextTail(s, v);
    case CStoreFront(_, _, _) => w := ConsumerStoreFront(s, v);
    case CStoreFrontBlock(_, _) => w := ConsumerStoreFrontBlock(s, v);
    case _ => ConsumerLearns(s, v);
  }
}
