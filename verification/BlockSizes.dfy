/** Every block of every run has a power of two for its size, so the machine's index step is the
    masked one of the code. */
module BlockSizes {

  import opened Bits
  import opened SpscQueue
  import opened SpscQueueTheorems

  ghost predicate Powers<T>(s: State<T>) {
    && IsPower(s.largest)
    && (forall i :: 0 <= i < |s.m.blocks| ==> IsPower(|s.m.blocks[i].data|))
    && (s.p.PLinkNew? || s.p.PStoreNext? ==> IsPower(|s.p.newBlock.data|))
  }

  lemma NewQueuePowers<T>(s: State<T>, size: nat, maxBlock: nat)
    requires IsNew(s, size, maxBlock) && IsPower(maxBlock)
    ensures Powers(s)
  {
    CeilIsPower(size + 1);
  }

  lemma PowerDoubles(n: nat)
    requires IsPower(n)
    ensures IsPower(2 * n)
  {}

  lemma ProducerKeepsPowers<T>(s: State<T>, raw: seq<T>)
    requires InRange(s) && Powers(s)
    ensures Powers(ProducerStep(s, raw))
  {
    PowerDoubles(s.largest);
    ProducerSizes(s, raw);
    ProducerNewBlock(s, raw);
    hide IsPower, InRange, ProducerStep;
  }

  lemma {:induction false} PowersAlong<T>(tr: seq<State<T>>, acts: seq<Action<T>>, j: nat)
    requires IsRun(tr, acts) && Powers(tr[0]) && j < |tr|
    ensures Powers(tr[j])
  {
    if j > 0 {
      PowersAlong(tr, acts, j - 1);
      assert Moves(tr[j - 1], acts[j - 1], tr[j]);
      hide IsPower, InRange, ProducerStep, ConsumerStep;
      match acts[j - 1]
      case Enqueue(_, _) =>
      case PStep(raw) => ProducerKeepsPowers(tr[j - 1], raw);
      case Dequeue =>
      case CStep => ConsumerSizes(tr[j - 1]);
    }
  }

  /** In every state of every run, for every block and every index into it, the 64-bit expression
      `(i + 1) & sizeMask` denotes the machine's next index. */
  lemma MaskedIndex<T>(tr: seq<State<T>>, acts: seq<Action<T>>, size: nat, maxBlock: nat, j: nat, k: nat, i: bv64, words: bv64)
    requires IsRun(tr, acts) && IsNew(tr[0], size, maxBlock) && IsPower(maxBlock) && j < |tr|
    requires k < |tr[j].m.blocks| && Value(words) == |tr[j].m.blocks[k].data| && Value(i) < Value(words)
    ensures Value(Masked(Inc(i), words)) == Bump(Value(i), |tr[j].m.blocks[k].data|)
  {
    NewQueuePowers(tr[0], size, maxBlock);
    PowersAlong(tr, acts, j);
    MaskIsBump(i, words);
  }

  // ---------- the largest block ----------

  predicate Carrying<T>(p: Producer<T>) { p.PLinkNew? || p.PStoreNext? }

  /** `largest` is the size of the largest block, or of the one about to be linked. */
  ghost predicate LargestOk<T>(s: State<T>) {
    && (forall i :: 0 <= i < |s.m.blocks| ==> |s.m.blocks[i].data| <= s.largest)
    && (if Carrying(s.p) then |s.p.newBlock.data| == s.largest
        else exists i :: 0 <= i < |s.m.blocks| && |s.m.blocks[i].data| == s.largest)
  }

  /** Only an allocation changes `largest`, and then to the size of the block it got, which is not smaller. */
  lemma ProducerLargest<T>(s: State<T>, raw: seq<T>)
    requires InRange(s)
    ensures var r := ProducerStep(s, raw);
      && (Carrying(s.p) ==> r.largest == s.largest && (s.p.PLinkNew? <==> Carrying(r.p)))
      && (Carrying(s.p) && Carrying(r.p) ==> |r.p.newBlock.data| == |s.p.newBlock.data|)
      && (!Carrying(s.p) && Carrying(r.p) ==> |r.p.newBlock.data| == r.largest >= s.largest)
      && (!Carrying(s.p) && !Carrying(r.p) ==> r.largest == s.largest)
      && (s.p.PStoreNext? ==> |r.m.blocks| == |s.m.blocks| + 1 && |r.m.blocks[|s.m.blocks|].data| == |s.p.newBlock.data|)
  {
    hide MemInRange, CInRange, Bump, IndicesOk;
  }

  lemma ProducerKeepsLargest<T>(s: State<T>, raw: seq<T>)
    requires InRange(s) && LargestOk(s)
    ensures LargestOk(ProducerStep(s, raw))
  {
    ProducerSizes(s, raw);
    ProducerLargest(s, raw);
    hide ProducerStep, InRange;
    var r := ProducerStep(s, raw);
    if s.p.PStoreNext? {
      assert |r.m.blocks[|s.m.blocks|].data| == r.largest;
    } else if !Carrying(r.p) {
      var i :| 0 <= i < |s.m.blocks| && |s.m.blocks[i].data| == s.largest;
      assert |r.m.blocks[i].data| == r.largest;
    }
  }

  lemma ConsumerKeepsLargest<T>(s: State<T>)
    requires InRange(s) && LargestOk(s)
    ensures LargestOk(ConsumerStep(s))
  {
    ConsumerSizes(s);
    hide ConsumerStep, InRange;
    var r := ConsumerStep(s);
    if !Carrying(s.p) {
      var i :| 0 <= i < |s.m.blocks| && |s.m.blocks[i].data| == s.largest;
      assert |r.m.blocks[i].data| == r.largest;
    }
  }

  /** In every state of every run `largest`, from which the size of the next block is computed, is that of the
      largest block. */
  lemma {:induction false} LargestAlong<T>(tr: seq<State<T>>, acts: seq<Action<T>>, size: nat, maxBlock: nat, j: nat)
    requires IsRun(tr, acts) && IsNew(tr[0], size, maxBlock) && j < |tr|
    ensures LargestOk(tr[j])
  {
    if j == 0 {
      NewHasBlocks(size, maxBlock);
      assert |tr[0].m.blocks[0].data| == tr[0].largest;
    } else {
      LargestAlong(tr, acts, size, maxBlock, j - 1);
      assert Moves(tr[j - 1], acts[j - 1], tr[j]);
      hide InRange, ProducerStep, ConsumerStep, IsNew;
      match acts[j - 1]
      case Enqueue(_, _) =>
      case PStep(raw) => ProducerKeepsLargest(tr[j - 1], raw);
      case Dequeue =>
      case CStep => ConsumerKeepsLargest(tr[j - 1]);
    }
  }

  lemma NewHasBlocks(size: nat, maxBlock: nat)
    requires maxBlock >= 2
    ensures BlockCount(size, maxBlock) >= 1
  {
    if CeilPow2(size + 1) > 2 * maxBlock { BlockCountSuffices(size, maxBlock); }
  }
}
