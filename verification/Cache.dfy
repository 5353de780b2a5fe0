/** The embedding cache of src/caching_embedding_provider.cpp: a list of entries, most recently used
    first, and an index from text to list node. This module is its specification on the list alone. */
module Cache {

  import opened Wrappers
  import opened Sink
  import Bits

  type Entry = (string, Vec)

  predicate Distinct(r: seq<Entry>) {
    forall i, j :: 0 <= i < j < |r| ==> r[i].0 != r[j].0
  }

  /** The position of a text in the list; its length when the text is not there. */
  function IndexOf(r: seq<Entry>, t: string): (n: nat)
    ensures n <= |r| && (n < |r| ==> r[n].0 == t)
    ensures forall i :: 0 <= i < n ==> r[i].0 != t
  {
    if r == [] || r[0].0 == t then 0 else 1 + IndexOf(r[1..], t)
  }

  predicate In(r: seq<Entry>, t: string) {
    IndexOf(r, t) < |r|
  }

  /** A text is used: it comes to the front. A new one takes the place of the last when the cache is
      full. */
  function Use(r: seq<Entry>, cap: nat, t: string, v: Vec): seq<Entry> {
    var i := IndexOf(r, t);
    if i < |r| then [(t, v)] + r[..i] + r[i + 1..]
    else [(t, v)] + (if |r| >= cap && r != [] then r[..|r| - 1] else r)
  }

  function UseAll(r: seq<Entry>, cap: nat, embed: string -> Vec, uses: seq<string>): seq<Entry> {
    if uses == [] then r
    else Use(UseAll(r, cap, embed, uses[..|uses| - 1]), cap, uses[|uses| - 1], embed(uses[|uses| - 1]))
  }

  /** The texts of the list the cache has, and those it does not have. */
  function Hits(r: seq<Entry>, texts: seq<string>): seq<string> {
    if texts == [] then []
    else
      var t := texts[|texts| - 1];
      Hits(r, texts[..|texts| - 1]) + (if In(r, t) then [t] else [])
  }

  function Misses(r: seq<Entry>, texts: seq<string>): seq<string> {
    if texts == [] then []
    else
      var t := texts[|texts| - 1];
      Misses(r, texts[..|texts| - 1]) + (if In(r, t) then [] else [t])
  }

  /** The cache after a batch: what it had is used first, what it did not have is added after. */
  function Batched(r: seq<Entry>, cap: nat, embed: string -> Vec, texts: seq<string>): seq<Entry> {
    UseAll(r, cap, embed, Hits(r, texts) + Misses(r, texts))
  }

  predicate Faithful(embed: string -> Vec, r: seq<Entry>) {
    forall i :: 0 <= i < |r| ==> r[i].1 == embed(r[i].0)
  }

  predicate Ok(r: seq<Entry>, cap: nat) {
    Distinct(r) && |r| <= cap
  }

  /** Where entry `b` of the list stood before entry `i` came to the front. */
  function Was(i: nat, b: nat): nat
    requires b > 0
  {
    if b <= i then b - 1 else b
  }

  ghost predicate Shifted(r: seq<Entry>, i: nat, r': seq<Entry>) {
    && r' != [] && i <= |r|
    && (forall b :: 0 < b < |r'| ==> Was(i, b) < |r| && r'[b] == r[Was(i, b)])
  }

  lemma UseShifts(r: seq<Entry>, cap: nat, t: string, v: Vec)
    ensures var r' := Use(r, cap, t, v);
      Shifted(r, IndexOf(r, t), r') && r'[0] == (t, v) && (|r| <= cap && cap > 0 ==> |r'| <= cap)
  {
    hide IndexOf;
    var i := IndexOf(r, t);
    if i < |r| { MoveShifts(r, i, v); }
  }

  lemma MoveShifts(r: seq<Entry>, i: nat, v: Vec)
    requires i < |r|
    ensures Shifted(r, i, [(r[i].0, v)] + r[..i] + r[i + 1..])
  {}

  lemma ShiftedDistinct(r: seq<Entry>, i: nat, r': seq<Entry>)
    requires Distinct(r) && Shifted(r, i, r')
    requires forall b :: 0 <= b < |r| && b != i ==> r[b].0 != r'[0].0
    ensures Distinct(r')
  {
    forall a, b | 0 <= a < b < |r'| ensures r'[a].0 != r'[b].0 {
      assert r'[b] == r[Was(i, b)];
      if a > 0 { assert r'[a] == r[Was(i, a)]; }
    }
  }

  lemma OnlyThere(r: seq<Entry>, t: string, b: nat)
    requires Distinct(r) && b < |r| && b != IndexOf(r, t)
    ensures r[b].0 != t
  {}

  lemma UseOk(r: seq<Entry>, cap: nat, t: string, v: Vec)
    requires Ok(r, cap) && cap > 0
    ensures Ok(Use(r, cap, t, v), cap) && Use(r, cap, t, v)[0] == (t, v)
  {
    UseShifts(r, cap, t, v);
    forall b | 0 <= b < |r| && b != IndexOf(r, t) ensures r[b].0 != t { OnlyThere(r, t, b); }
    ShiftedDistinct(r, IndexOf(r, t), Use(r, cap, t, v));
    hide Use, IndexOf, Distinct, Shifted;
  }

  lemma {:induction false} UseAllOk(r: seq<Entry>, cap: nat, embed: string -> Vec, uses: seq<string>)
    requires Ok(r, cap) && cap > 0
    ensures Ok(UseAll(r, cap, embed, uses), cap)
  {
    if uses != [] {
      UseAllOk(r, cap, embed, uses[..|uses| - 1]);
      UseOk(UseAll(r, cap, embed, uses[..|uses| - 1]), cap, uses[|uses| - 1], embed(uses[|uses| - 1]));
    }
  }

  // ---------- repeating a batch ----------

  function Top(r: seq<Entry>, n: nat): set<string>
    requires n <= |r|
  {
    set i | 0 <= i < n :: r[i].0
  }

  /** The texts of `d` are exactly those of the first |d| entries. */
  predicate OnTop(r: seq<Entry>, d: set<string>) {
    |d| <= |r| && Top(r, |d|) == d
  }

  /** Moving up an entry that is among the first `n` leaves the first `n` the same. */
  lemma TopMoved(r: seq<Entry>, k: nat, n: nat, v: Vec)
    requires k < n <= |r|
    ensures Top([(r[k].0, v)] + r[..k] + r[k + 1..], n) == Top(r, n)
  {
    var r' := [(r[k].0, v)] + r[..k] + r[k + 1..];
    forall i | 0 <= i < n ensures r'[i].0 in Top(r, n) {
      assert r'[i].0 == if i == 0 then r[k].0 else if i <= k then r[i - 1].0 else r[i].0;
    }
    forall i | 0 <= i < n ensures r[i].0 in Top(r', n) {
      assert r[i].0 == r'[if i == k then 0 else if i < k then i + 1 else i].0;
    }
  }

  /** Putting an entry in front of the first `n` adds it to them. */
  lemma TopAdded(r: seq<Entry>, r': seq<Entry>, n: nat)
    requires n <= |r| && n < |r'| && forall i :: 0 <= i < n ==> r'[i + 1] == r[i]
    ensures Top(r', n + 1) == Top(r, n) + {r'[0].0}
  {
    forall i | 0 <= i < n + 1 ensures r'[i].0 in Top(r, n) + {r'[0].0} {
      if i > 0 { assert r'[i - 1 + 1] == r[i - 1]; }
    }
    forall i | 0 <= i < n ensures r[i].0 in Top(r', n + 1) { assert r'[i + 1] == r[i]; }
    assert r'[0].0 in Top(r', n + 1);
  }

  lemma UseOnTop(r: seq<Entry>, cap: nat, t: string, v: Vec, d: set<string>)
    requires Ok(r, cap) && OnTop(r, d) && |d + {t}| <= cap
    ensures OnTop(Use(r, cap, t, v), d + {t})
  {
    hide Top;
    var i, r' := IndexOf(r, t), Use(r, cap, t, v);
    if i < |d| {
      InTop(r, i, |d|);
      assert d + {t} == d;
      TopMoved(r, i, |d|, v);
    } else {
      if t in d { TopHas(r, |d|, t); assert false; }
      assert |d + {t}| == |d| + 1;
      TopAdded(r, r', |d|);
    }
  }

  lemma InTop(r: seq<Entry>, i: nat, n: nat)
    requires i < n <= |r|
    ensures r[i].0 in Top(r, n)
  {}

  lemma TopHas(r: seq<Entry>, n: nat, t: string)
    requires n <= |r| && t in Top(r, n)
    ensures IndexOf(r, t) < n && In(r, t)
  {}

  lemma {:induction false} UseAllOnTop(r: seq<Entry>, cap: nat, embed: string -> Vec, uses: seq<string>)
    requires Ok(r, cap) && |SetOf(uses)| <= cap && cap > 0
    ensures OnTop(UseAll(r, cap, embed, uses), SetOf(uses))
  {
    if uses == [] {
      assert SetOf(uses) == {} && Top(r, 0) == {};
    } else {
      hide OnTop, Ok;
      var n := |uses| - 1;
      SetOfSnoc(uses[..n], uses[n]);
      assert uses == uses[..n] + [uses[n]];
      SubsetSmaller(SetOf(uses[..n]), SetOf(uses));
      UseAllOnTop(r, cap, embed, uses[..n]);
      UseAllOk(r, cap, embed, uses[..n]);
      UseOnTop(UseAll(r, cap, embed, uses[..n]), cap, uses[n], embed(uses[n]), SetOf(uses[..n]));
    }
  }

  function SetOf(texts: seq<string>): set<string> {
    set i | 0 <= i < |texts| :: texts[i]
  }

  lemma SetOfSnoc(texts: seq<string>, t: string)
    ensures SetOf(texts + [t]) == SetOf(texts) + {t}
  {
    assert (texts + [t])[|texts|] == t;
    forall x | x in SetOf(texts) ensures x in SetOf(texts + [t]) {
      var i :| 0 <= i < |texts| && texts[i] == x;
      assert (texts + [t])[i] == x;
    }
  }

  lemma {:induction false} SetOfSmall(texts: seq<string>)
    ensures |SetOf(texts)| <= |texts|
  {
    if texts != [] {
      var n := |texts| - 1;
      SetOfSmall(texts[..n]);
      SetOfSnoc(texts[..n], texts[n]);
      assert texts == texts[..n] + [texts[n]];
    }
  }

  /** Hits and misses together are the texts of the batch. */
  lemma {:induction false} HitsAndMisses(r: seq<Entry>, texts: seq<string>)
    ensures SetOf(Hits(r, texts) + Misses(r, texts)) == SetOf(texts)
  {
    if texts != [] {
      var n := |texts| - 1;
      var t, hits, misses := texts[n], Hits(r, texts[..n]), Misses(r, texts[..n]);
      HitsAndMisses(r, texts[..n]);
      assert texts == texts[..n] + [t];
      SetOfSnoc(texts[..n], t);
      SetOfBoth(hits, misses);
      SetOfSnoc(hits, t);
      SetOfSnoc(misses, t);
      SetOfBoth(hits + [t], misses);
      SetOfBoth(hits, misses + [t]);
      assert hits + [] == hits && misses + [] == misses;
    }
  }

  lemma SetOfBoth(a: seq<string>, b: seq<string>)
    ensures SetOf(a + b) == SetOf(a) + SetOf(b)
  {
    forall x | x in SetOf(a) + SetOf(b) ensures x in SetOf(a + b) {
      if x in SetOf(a) {
        var i :| 0 <= i < |a| && a[i] == x;
        assert (a + b)[i] == x;
      } else {
        var i :| 0 <= i < |b| && b[i] == x;
        assert (a + b)[|a| + i] == x;
      }
    }
  }

  lemma {:induction false} AllThere(r: seq<Entry>, texts: seq<string>)
    requires forall i :: 0 <= i < |texts| ==> In(r, texts[i])
    ensures Misses(r, texts) == [] && Hits(r, texts) == texts
  {
    if texts != [] {
      AllThere(r, texts[..|texts| - 1]);
      assert texts == texts[..|texts| - 1] + [texts[|texts| - 1]];
    }
  }

  /** Whatever the cache held before, a batch with no more different texts than the cache has room for is
      there afterwards: repeating it misses nothing. */
  lemma RepeatMissesNothing(r: seq<Entry>, cap: nat, embed: string -> Vec, texts: seq<string>)
    requires Ok(r, cap) && cap > 0 && |SetOf(texts)| <= cap
    ensures Misses(Batched(r, cap, embed, texts), texts) == []
  {
    hide Use, Hits, Misses;
    var uses := Hits(r, texts) + Misses(r, texts);
    HitsAndMisses(r, texts);
    UseAllOnTop(r, cap, embed, uses);
    var r' := Batched(r, cap, embed, texts);
    forall i | 0 <= i < |texts| ensures In(r', texts[i]) {
      assert texts[i] in SetOf(texts);
      TopHas(r', |SetOf(texts)|, texts[i]);
    }
    AllThere(r', texts);
  }

  /** The power of two the cache is sized with. */
  method CacheSizeForBatch(batch: nat) returns (p: nat)
    ensures p >= batch && p >= 16 && Bits.IsPower(p)
    ensures forall k: nat :: Bits.IsPower(k) && k >= batch && k >= 16 ==> p <= k
    ensures p == 16 || p < 2 * batch
  {
    var n := if batch > 16 then batch else 16;
    p := 1;
    while p < n
      invariant Bits.IsPower(p) && p < 2 * n
      invariant forall k: nat :: Bits.IsPower(k) && k >= n ==> p <= k
      decreases n - p
    {
      forall k: nat | Bits.IsPower(k) && k >= n ensures 2 * p <= k { Bits.PowersApart(p, k); }
      p := p * 2;
    }
    assert Bits.IsPower(16);
  }

  /** A cache sized for the dispatcher's batch: a second sink embeds nothing anew. */
  lemma SecondSinkMissesNothing(r: seq<Entry>, cap: nat, embed: string -> Vec, batch: nat, texts: seq<string>)
    requires Ok(r, cap) && cap >= batch && cap >= 16 && |texts| <= batch
    ensures Misses(Batched(r, cap, embed, texts), texts) == []
  {
    SetOfSmall(texts);
    RepeatMissesNothing(r, cap, embed, texts);
  }

  // ---------- least recently used ----------

  /** When a text was last used in a history of uses; -1 if never. */
  function LastUse(h: seq<string>, t: string): (n: int)
    ensures -1 <= n < |h|
  {
    if h == [] then -1 else if h[|h| - 1] == t then |h| - 1 else LastUse(h[..|h| - 1], t)
  }

  lemma LastUseSnoc(h: seq<string>, t: string, x: string)
    ensures LastUse(h + [t], x) == if x == t then |h| else LastUse(h, x)
  {}

  /** The list is ordered by last use. */
  predicate ByAge(r: seq<Entry>, h: seq<string>) {
    && (forall i :: 0 <= i < |r| ==> LastUse(h, r[i].0) >= 0)
    && (forall i, j :: 0 <= i < j < |r| ==> LastUse(h, r[i].0) > LastUse(h, r[j].0))
  }

  lemma UseByAge(r: seq<Entry>, cap: nat, t: string, v: Vec, h: seq<string>)
    requires Distinct(r) && ByAge(r, h)
    ensures ByAge(Use(r, cap, t, v), h + [t])
  {
    UseShifts(r, cap, t, v);
    LastUseSnoc(h, t, t);
    var i, r' := IndexOf(r, t), Use(r, cap, t, v);
    forall b | 0 < b < |r'| ensures LastUse(h + [t], r'[b].0) == LastUse(h, r'[b].0) {
      assert r'[b] == r[Was(i, b)];
      OnlyThere(r, t, Was(i, b));
      LastUseSnoc(h, t, r'[b].0);
    }
    hide LastUse, Use, IndexOf, Distinct;
    ShiftedByAge(r, i, r', h, h + [t]);
  }

  lemma ShiftedByAge(r: seq<Entry>, i: nat, r': seq<Entry>, h: seq<string>, h': seq<string>)
    requires Shifted(r, i, r') && ByAge(r, h) && |h| <= LastUse(h', r'[0].0)
    requires forall b :: 0 < b < |r'| ==> LastUse(h', r'[b].0) == LastUse(h, r'[b].0)
    ensures ByAge(r', h')
  {
    hide LastUse;
    forall b | 0 <= b < |r'| ensures LastUse(h', r'[b].0) >= 0 {
      if b > 0 { assert r'[b] == r[Was(i, b)]; }
    }
    forall a, b | 0 <= a < b < |r'| ensures LastUse(h', r'[a].0) > LastUse(h', r'[b].0) {
      assert r'[b] == r[Was(i, b)];
      if a > 0 { assert r'[a] == r[Was(i, a)]; }
    }
  }

  /** The reference: each cached text with its vector and the time of its last use. */
  type Stamped = map<string, (Vec, int)>

  function Stamps(r: seq<Entry>, h: seq<string>): Stamped
    requires Distinct(r)
  {
    map i | 0 <= i < |r| :: r[i].0 := (r[i].1, LastUse(h, r[i].0))
  }

  predicate Oldest(m: Stamped, t: string) {
    t in m && forall x :: x in m && x != t ==> m[t].1 < m[x].1
  }

  lemma StampsAt(r: seq<Entry>, h: seq<string>, t: string)
    requires Distinct(r)
    ensures t in Stamps(r, h) <==> IndexOf(r, t) < |r|
    ensures t in Stamps(r, h) ==> Stamps(r, h)[t] == (r[IndexOf(r, t)].1, LastUse(h, t))
  {
    hide LastUse;
    if t in Stamps(r, h) {
      var i :| 0 <= i < |r| && r[i].0 == t;
      AtIndex(r, i);
    }
  }

  lemma SameStamps(r: seq<Entry>, h: seq<string>, m: Stamped)
    requires Distinct(r)
    requires forall t: string :: t in m <==> IndexOf(r, t) < |r|
    requires forall t: string :: t in m ==> m[t] == (r[IndexOf(r, t)].1, LastUse(h, t))
    ensures Stamps(r, h) == m
  {
    forall t: string ensures (t in Stamps(r, h) <==> t in m) && (t in m ==> Stamps(r, h)[t] == m[t]) {
      StampsAt(r, h, t);
    }
    hide Stamps, LastUse, IndexOf;
  }

  lemma AtIndex(r: seq<Entry>, k: nat)
    requires Distinct(r) && k < |r|
    ensures IndexOf(r, r[k].0) == k
  {}

  lemma MovedIndex(r: seq<Entry>, i: nat, v: Vec, x: string)
    requires Distinct(r) && i < |r|
    ensures var r' := [(r[i].0, v)] + r[..i] + r[i + 1..];
      && Distinct(r') && (IndexOf(r', x) < |r'| <==> IndexOf(r, x) < |r|)
      && (IndexOf(r, x) < |r| ==> r'[IndexOf(r', x)].1 == if x == r[i].0 then v else r[IndexOf(r, x)].1)
  {
    var r' := [(r[i].0, v)] + r[..i] + r[i + 1..];
    MoveShifts(r, i, v);
    AtIndex(r, i);
    forall b | 0 <= b < |r| && b != i ensures r[b].0 != r[i].0 { OnlyThere(r, r[i].0, b); }
    ShiftedDistinct(r, i, r');
    ShiftedIndex(r, i, r', x);
  }

  lemma ShiftedIndex(r: seq<Entry>, i: nat, r': seq<Entry>, x: string)
    requires Distinct(r) && Distinct(r') && Shifted(r, i, r') && i < |r| && |r'| == |r| && r'[0].0 == r[i].0
    ensures IndexOf(r', x) < |r'| <==> IndexOf(r, x) < |r|
    ensures IndexOf(r, x) < |r| ==> r'[IndexOf(r', x)].1 == if x == r[i].0 then r'[0].1 else r[IndexOf(r, x)].1
  {
    var k, k' := IndexOf(r, x), IndexOf(r', x);
    if k' < |r'| { ShiftedFrom(r, i, r', k'); }
    if k < |r| { ShiftedTo(r, i, r', k); }
    AtIndex(r, i);
    hide IndexOf, Distinct, Shifted;
  }

  lemma ShiftedFrom(r: seq<Entry>, i: nat, r': seq<Entry>, k: nat)
    requires Distinct(r) && Shifted(r, i, r') && i < |r| && r'[0].0 == r[i].0 && k < |r'|
    ensures IndexOf(r, r'[k].0) < |r|
  {
    var b := if k == 0 then i else Was(i, k);
    hide IndexOf, Distinct;
    assert r[b].0 == r'[k].0;
    AtIndex(r, b);
  }

  lemma ShiftedTo(r: seq<Entry>, i: nat, r': seq<Entry>, k: nat)
    requires Distinct(r') && Shifted(r, i, r') && i < |r| == |r'| && r'[0].0 == r[i].0 && k < |r|
    ensures var b := IndexOf(r', r[k].0); b < |r'| && r'[b].1 == if k == i then r'[0].1 else r[k].1
  {
    var b := if k == i then 0 else if k < i then k + 1 else k;
    hide IndexOf, Distinct;
    assert b > 0 ==> Was(i, b) == k && r'[b] == r[Was(i, b)];
    AtIndex(r', b);
  }

  /** A use of a cached text only gives it a new time and vector. */
  lemma UseCached(r: seq<Entry>, cap: nat, t: string, v: Vec, h: seq<string>)
    requires Distinct(r) && IndexOf(r, t) < |r|
    ensures Distinct(Use(r, cap, t, v)) && Stamps(Use(r, cap, t, v), h + [t]) == Stamps(r, h)[t := (v, |h|)]
  {
    var i, r', m := IndexOf(r, t), Use(r, cap, t, v), Stamps(r, h)[t := (v, |h|)];
    assert r' == [(r[i].0, v)] + r[..i] + r[i + 1..];
    hide Stamps, LastUse, Use, IndexOf, Distinct;
    MovedIndex(r, i, v, t);
    forall x: string
      ensures (x in m <==> IndexOf(r', x) < |r'|) && (x in m ==> m[x] == (r'[IndexOf(r', x)].1, LastUse(h + [t], x)))
    {
      StampsAt(r, h, x);
      LastUseSnoc(h, t, x);
      MovedIndex(r, i, v, x);
    }
    SameStamps(r', h + [t], m);
  }

  lemma AddedStamps(r: seq<Entry>, t: string, v: Vec, h: seq<string>)
    requires Distinct(r) && IndexOf(r, t) == |r|
    ensures Distinct([(t, v)] + r) && Stamps([(t, v)] + r, h + [t]) == Stamps(r, h)[t := (v, |h|)]
  {
    hide Stamps, LastUse;
    var r', m := [(t, v)] + r, Stamps(r, h)[t := (v, |h|)];
    assert r'[1..] == r;
    forall x: string
      ensures (x in m <==> IndexOf(r', x) < |r'|) && (x in m ==> m[x] == (r'[IndexOf(r', x)].1, LastUse(h + [t], x)))
    {
      StampsAt(r, h, x);
      LastUseSnoc(h, t, x);
    }
    SameStamps(r', h + [t], m);
  }

  lemma DroppedStamps(r: seq<Entry>, h: seq<string>)
    requires Distinct(r) && r != []
    ensures Stamps(r[..|r| - 1], h) == Stamps(r, h) - {r[|r| - 1].0}
  {
    var n := |r| - 1;
    var m := Stamps(r, h) - {r[n].0};
    AtIndex(r, n);
    hide Stamps, LastUse, IndexOf, Distinct;
    forall x: string
      ensures (x in m <==> IndexOf(r[..n], x) < n) && (x in m ==> m[x] == (r[..n][IndexOf(r[..n], x)].1, LastUse(h, x)))
    {
      StampsAt(r, h, x);
      DroppedIndex(r, x);
    }
    DroppedDistinct(r);
    SameStamps(r[..n], h, m);
  }

  lemma DroppedDistinct(r: seq<Entry>)
    requires Distinct(r) && r != []
    ensures Distinct(r[..|r| - 1])
  {}

  lemma DroppedIndex(r: seq<Entry>, x: string)
    requires Distinct(r) && r != []
    ensures var n := |r| - 1;
      IndexOf(r[..n], x) == if IndexOf(r, x) < n then IndexOf(r, x) else n
  {
    var k := IndexOf(r, x);
    if k < |r| - 1 { AtIndex(r[..|r| - 1], k); }
  }

  /** A use of a new text adds it; when the cache is full it replaces the text whose last use is oldest. */
  lemma UseNew(r: seq<Entry>, cap: nat, t: string, v: Vec, h: seq<string>)
    requires Ok(r, cap) && cap > 0 && IndexOf(r, t) == |r| && ByAge(r, h)
    ensures Distinct(Use(r, cap, t, v))
    ensures |r| < cap ==> Stamps(Use(r, cap, t, v), h + [t]) == Stamps(r, h)[t := (v, |h|)]
    ensures |r| == cap ==> var gone := r[cap - 1].0;
      Oldest(Stamps(r, h), gone) && Stamps(Use(r, cap, t, v), h + [t]) == (Stamps(r, h) - {gone})[t := (v, |h|)]
  {
    hide Stamps, LastUse, Oldest;
    if |r| == cap {
      LastIsOldest(r, h);
      DroppedStamps(r, h);
      AddedStamps(r[..cap - 1], t, v, h);
    } else {
      AddedStamps(r, t, v, h);
    }
  }

  lemma LastIsOldest(r: seq<Entry>, h: seq<string>)
    requires Distinct(r) && r != [] && ByAge(r, h)
    ensures Oldest(Stamps(r, h), r[|r| - 1].0)
  {}

  // ---------- the order a batch leaves ----------

  lemma {:induction false} UseAllByAge(r: seq<Entry>, cap: nat, embed: string -> Vec, uses: seq<string>, h: seq<string>)
    requires Ok(r, cap) && cap > 0 && ByAge(r, h)
    ensures ByAge(UseAll(r, cap, embed, uses), h + uses)
  {
    if uses == [] {
      assert h + uses == h;
    } else {
      var n := |uses| - 1;
      var before := UseAll(r, cap, embed, uses[..n]);
      UseAllByAge(r, cap, embed, uses[..n], h);
      UseAllOk(r, cap, embed, uses[..n]);
      hide ByAge, Use;
      UseByAge(before, cap, uses[n], embed(uses[n]), h + uses[..n]);
      assert h + uses == (h + uses[..n]) + [uses[n]];
    }
  }

  lemma {:induction false} LastUseAfter(a: seq<string>, b: seq<string>, t: string)
    ensures t in b ==> LastUse(a + b, t) >= |a|
    ensures t !in b ==> LastUse(a + b, t) == LastUse(a, t)
  {
    if b == [] {
      assert a + b == a;
    } else {
      var n := |b| - 1;
      assert (a + b)[..|a + b| - 1] == a + b[..n] && (a + b)[|a + b| - 1] == b[n] && b == b[..n] + [b[n]];
      LastUseAfter(a, b[..n], t);
    }
  }

  lemma {:induction false} MissesAre(r: seq<Entry>, texts: seq<string>, t: string)
    ensures t in Misses(r, texts) <==> t in texts && !In(r, t)
  {
    if texts != [] {
      var n := |texts| - 1;
      MissesAre(r, texts[..n], t);
      assert texts == texts[..n] + [texts[n]];
    }
  }

  /** After a batch, the texts it had to embed are more recent than those it found. */
  lemma MissesAreNewer(r: seq<Entry>, cap: nat, embed: string -> Vec, texts: seq<string>, h: seq<string>, hit: string, miss: string)
    requires Ok(r, cap) && cap > 0 && ByAge(r, h) && |SetOf(texts)| <= cap
    requires hit in texts && miss in texts && In(r, hit) && !In(r, miss)
    ensures var r' := Batched(r, cap, embed, texts); IndexOf(r', miss) < IndexOf(r', hit) < |r'|
  {
    var hits, misses := Hits(r, texts), Misses(r, texts);
    var r' := Batched(r, cap, embed, texts);
    UseAllByAge(r, cap, embed, hits + misses, h);
    assert h + (hits + misses) == (h + hits) + misses;
    MissesAre(r, texts, hit);
    MissesAre(r, texts, miss);
    LastUseAfter(h + hits, misses, miss);
    LastUseAfter(h + hits, misses, hit);
    RepeatMissesNothing(r, cap, embed, texts);
    StillThere(r', texts, hit);
    StillThere(r', texts, miss);
    UseAllOk(r, cap, embed, hits + misses);
    hide Hits, Misses, LastUse, UseAll, Batched;
  }

  lemma {:induction false} StillThere(r: seq<Entry>, texts: seq<string>, t: string)
    requires Misses(r, texts) == [] && t in texts
    ensures In(r, t)
  {
    MissesAre(r, texts, t);
  }
}
