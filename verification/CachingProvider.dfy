/** The cache as src/caching_embedding_provider.cpp keeps it: list nodes that are spliced and popped, and
    an index that points at them, proved to behave as the list in Cache. */
module CachingProvider {

  import opened Wrappers
  import opened Sink
  import opened Cache

  /** A list node; the index refers to it by its id. */
  datatype Node = Node(id: nat, text: string, vec: Vec)

  /** The entries of the list. */
  function Listed(lru: seq<Node>): seq<Entry> {
    seq(|lru|, i requires 0 <= i < |lru| => (lru[i].text, lru[i].vec))
  }

  predicate OwnIds(lru: seq<Node>, next: nat) {
    && (forall i :: 0 <= i < |lru| ==> lru[i].id < next)
    && (forall i, j :: 0 <= i < j < |lru| ==> lru[i].id != lru[j].id)
  }

  predicate Pointed(lru: seq<Node>, index: map<string, nat>) {
    forall i :: 0 <= i < |lru| ==> lru[i].text in index && index[lru[i].text] == lru[i].id
  }

  /** List and index hold the same texts, each once. */
  ghost predicate Linked(lru: seq<Node>, index: map<string, nat>, next: nat) {
    && OwnIds(lru, next) && Pointed(lru, index) && |index| == |lru|
    && (forall t :: t in index ==> In(Listed(lru), t))
  }

  lemma LinkedIsDistinct(lru: seq<Node>, index: map<string, nat>, next: nat)
    requires Linked(lru, index, next)
    ensures Distinct(Listed(lru))
  {}

  /** Where a node is in the list. */
  function Position(lru: seq<Node>, id: nat): (i: nat)
    ensures i <= |lru| && (i < |lru| ==> lru[i].id == id)
    ensures forall k :: 0 <= k < |lru| && lru[k].id == id ==> i <= k
  {
    if lru == [] || lru[0].id == id then 0 else 1 + Position(lru[1..], id)
  }

  /** The index leads to the node of the text. */
  lemma IndexLeadsTo(lru: seq<Node>, index: map<string, nat>, next: nat, t: string)
    requires Linked(lru, index, next)
    ensures |index| == |lru| && (t in index <==> In(Listed(lru), t))
    ensures t in index ==> IndexOf(Listed(lru), t) == Position(lru, index[t]) < |lru|
  {}

  lemma SplicedPointed(lru: seq<Node>, index: map<string, nat>, next: nat, p: nat, v: Vec)
    requires OwnIds(lru, next) && Pointed(lru, index) && p < |lru|
    ensures var lru' := [lru[p].(vec := v)] + lru[..p] + lru[p + 1..];
      OwnIds(lru', next) && Pointed(lru', index)
  {}

  /** Splicing the node at `p` to the front, with a new vector. */
  lemma Spliced(lru: seq<Node>, index: map<string, nat>, next: nat, p: nat, v: Vec)
    requires Linked(lru, index, next) && p < |lru|
    ensures Linked([lru[p].(vec := v)] + lru[..p] + lru[p + 1..], index, next)
    ensures Listed([lru[p].(vec := v)] + lru[..p] + lru[p + 1..]) == [(lru[p].text, v)] + Listed(lru)[..p] + Listed(lru)[p + 1..]
  {
    hide OwnIds, Pointed, IndexOf;
    SplicedPointed(lru, index, next, p, v);
    var lru' := [lru[p].(vec := v)] + lru[..p] + lru[p + 1..];
    var r, r' := Listed(lru), Listed(lru');
    assert r' == [(r[p].0, v)] + r[..p] + r[p + 1..];
    LinkedIsDistinct(lru, index, next);
    hide Listed, Distinct;
    forall t | t in index ensures In(r', t) { MovedIndex(r, p, v, t); }
  }

  /** What a use makes of the list, in terms of the nodes. */
  lemma UseSpelled(lru: seq<Node>, cap: nat, t: string, v: Vec)
    ensures var r := Listed(lru); var i := IndexOf(r, t);
      && |r| == |lru|
      && (In(r, t) ==> i < |lru| && lru[i].text == t && Use(r, cap, t, v) == [(t, v)] + r[..i] + r[i + 1..])
      && (!In(r, t) && |lru| >= cap && lru != [] ==> Use(r, cap, t, v) == [(t, v)] + r[..|lru| - 1])
      && (!In(r, t) && |lru| < cap ==> Use(r, cap, t, v) == [(t, v)] + r)
  {}

  lemma InFront(e: Entry, r: seq<Entry>, t: string)
    requires e.0 == t || In(r, t)
    ensures In([e] + r, t)
  {}

  lemma InShorter(r: seq<Entry>, t: string)
    requires r != [] && In(r, t) && t != r[|r| - 1].0
    ensures In(r[..|r| - 1], t)
  {}

  lemma Popped(lru: seq<Node>, index: map<string, nat>, next: nat)
    requires Linked(lru, index, next) && lru != []
    ensures var k := |lru| - 1;
      Linked(lru[..k], index - {lru[k].text}, next) && Listed(lru[..k]) == Listed(lru)[..k]
  {
    hide In;
    var k, r := |lru| - 1, Listed(lru);
    assert Listed(lru[..k]) == r[..k] && r[k].0 == lru[k].text;
    LinkedIsDistinct(lru, index, next);
    assert Pointed(lru[..k], index - {lru[k].text}) by {
      forall i | 0 <= i < k ensures lru[i].text != lru[k].text { assert r[i].0 == lru[i].text; }
    }
    hide Listed, Distinct, Pointed;
    forall t | t in index && t != lru[k].text ensures In(r[..k], t) { InShorter(r, t); }
    assert (index - {lru[k].text}).Keys == index.Keys - {lru[k].text};
    PoppedSize(lru, index, next);
  }

  lemma PoppedSize(lru: seq<Node>, index: map<string, nat>, next: nat)
    requires Linked(lru, index, next) && lru != []
    ensures |index - {lru[|lru| - 1].text}| == |lru| - 1
  {}

  lemma AddedPointed(lru: seq<Node>, index: map<string, nat>, next: nat, t: string, v: Vec)
    requires OwnIds(lru, next) && Pointed(lru, index) && t !in index
    ensures OwnIds([Node(next, t, v)] + lru, next + 1) && Pointed([Node(next, t, v)] + lru, index[t := next])
  {}

  lemma Added(lru: seq<Node>, index: map<string, nat>, next: nat, t: string, v: Vec)
    requires Linked(lru, index, next) && t !in index
    ensures Linked([Node(next, t, v)] + lru, index[t := next], next + 1)
    ensures Listed([Node(next, t, v)] + lru) == [(t, v)] + Listed(lru)
  {
    hide OwnIds, Pointed, In;
    AddedPointed(lru, index, next, t, v);
    assert Listed([Node(next, t, v)] + lru) == [(t, v)] + Listed(lru);
    hide Listed;
    forall x | x == t || x in index ensures In([(t, v)] + Listed(lru), x) { InFront((t, v), Listed(lru), x); }
    assert index[t := next].Keys == index.Keys + {t};
  }

  /** What a lookup returns, and the list after it. */
  predicate Looked(r: seq<Entry>, cap: nat, t: string, v: Option<Vec>, r': seq<Entry>) {
    if In(r, t) then v == Some(r[IndexOf(r, t)].1) && r' == Use(r, cap, t, r[IndexOf(r, t)].1)
    else v == None && r' == r
  }

  class CachingEmbeddingProvider {
    const cap: nat
    var lru: seq<Node>
    var index: map<string, nat>
    var next: nat
    var innerCalls: nat
    ghost var history: seq<string>

    ghost predicate Valid()
      reads `lru, `index, `next, `history
    {
      cap > 0 && |lru| <= cap && Linked(lru, index, next) && ByAge(Listed(lru), history)
    }

    function Contents(): seq<Entry>
      reads `lru
    {
      Listed(lru)
    }

    constructor (cap: nat)
      requires cap > 0
      ensures Valid() && this.cap == cap && Contents() == []
    {
      this.cap := cap;
      lru, index, next, innerCalls, history := [], map[], 0, 0, [];
    }

    /** Looks a text up; a hit makes it the most recently used. */
    method TryGet(t: string) returns (v: Option<Vec>)
      requires Valid()
      modifies `lru, `history
      ensures Valid()
      ensures Looked(old(Contents()), cap, t, v, Contents())
      ensures history == if v.Some? then old(history) + [t] else old(history)
    {
      hide ByAge, Linked, Distinct;
      IndexLeadsTo(lru, index, next, t);
      if t !in index { return None; }
      var p := Position(lru, index[t]);
      var vec := lru[p].vec;
      assert Listed(lru)[p] == (t, vec);
      LinkedIsDistinct(lru, index, next);
      UseByAge(Listed(lru), cap, t, vec, history);
      Spliced(lru, index, next, p, vec);
      lru := [lru[p].(vec := vec)] + lru[..p] + lru[p + 1..];
      history := history + [t];
      return Some(vec);
    }

    /** Stores a vector; a full cache drops its last entry first. */
    method Put(t: string, v: Vec)
      requires Valid()
      modifies `lru, `index, `next, `history
      ensures Valid() && Contents() == Use(old(Contents()), cap, t, v) && history == old(history) + [t]
    {
      hide ByAge, Linked, Distinct, Use, In, Listed;
      IndexLeadsTo(lru, index, next, t);
      LinkedIsDistinct(lru, index, next);
      UseByAge(Listed(lru), cap, t, v, history);
      UseSpelled(lru, cap, t, v);
      history := history + [t];
      if t in index {
        var p := Position(lru, index[t]);
        Spliced(lru, index, next, p, v);
        lru := [lru[p].(vec := v)] + lru[..p] + lru[p + 1..];
        return;
      }
      if |index| >= cap {
        var last := lru[|lru| - 1];
        Popped(lru, index, next);
        index := index - {last.text};
        lru := lru[..|lru| - 1];
      }
      Added(lru, index, next, t, v);
      lru := [Node(next, t, v)] + lru;
      index := index[t := next];
      next := next + 1;
    }

    method Embed(inner: string -> Vec, t: string) returns (v: Vec)
      requires Valid()
      modifies this
      ensures Valid()
      ensures old(Faithful(inner, Contents())) ==>
        v == inner(t) && Faithful(inner, Contents()) && Contents() == Use(old(Contents()), cap, t, inner(t))
      ensures innerCalls == old(innerCalls) + if In(old(Contents()), t) then 0 else 1
    {
      if old(Faithful(inner, Contents())) { UseFaithful(inner, Contents(), cap, t); }
      var cached := TryGet(t);
      if cached.Some? { return cached.value; }
      v := inner(t);
      innerCalls := innerCalls + 1;
      Put(t, v);
    }

    /** First loop: hits are copied out and used, misses are collected with their positions. */
    method Scan(texts: seq<string>, ghost embed: string -> Vec)
      returns (results: seq<Vec>, misses: seq<string>, at: seq<nat>)
      requires Valid()
      modifies `lru, `history
      ensures Valid() && Scanned(embed, old(Contents()), Contents(), cap, texts, results, misses, at)
    {
      hide *;
      ghost var r0 := Contents();
      results, misses, at := [], [], [];
      ScanStart(embed, r0, cap);
      assert texts[..0] == [];
      for i := 0 to |texts|
        invariant Valid() && SameTexts(r0, Contents()) && Scanned(embed, r0, Contents(), cap, texts[..i], results, misses, at)
      {
        ghost var r := Contents();
        ValidIsDistinct();
        var cached := TryGet(texts[i]);
        LookKeepsTexts(r0, r, cap, texts[i], cached, Contents());
        assert texts[..i + 1] == texts[..i] + [texts[i]];
        if cached.Some? {
          ScanHit(embed, r0, r, cap, texts[..i], results, misses, at, texts[i], cached, Contents());
          results := results + [cached.value];
        } else {
          ScanMiss(embed, r0, r, cap, texts[..i], results, misses, at, texts[i], cached, Contents());
          results, misses, at := results + [[]], misses + [texts[i]], at + [i];
        }
      }
      assert texts[..|texts|] == texts;
    }

    /** The whole batch. With a provider that embeds each text on its own, the results are those of the
        provider, and it is asked only when something was missing; a provider that returns the wrong
        number of vectors makes the result empty. */
    method EmbedBatch(inner: Provider, ghost embed: string -> Vec, texts: seq<string>) returns (results: seq<Vec>)
      requires Valid()
      modifies this
      ensures Valid()
      ensures innerCalls == old(innerCalls) + if Misses(old(Contents()), texts) == [] then 0 else 1
      ensures var misses := Misses(old(Contents()), texts); misses != [] && |inner(misses)| != |misses| ==> results == []
      ensures Pointwise(inner, embed) && old(Faithful(embed, Contents())) ==>
        && |results| == |texts| && (forall i :: 0 <= i < |texts| ==> results[i] == embed(texts[i]))
        && Faithful(embed, Contents()) && Contents() == Batched(old(Contents()), cap, embed, texts)
    {
      hide Valid, Contents, UseAll, Misses, Scanned, Filling, Faithful, Use;
      ghost var r0 := Contents();
      var misses, at;
      results, misses, at := Scan(texts, embed);
      ghost var r := Contents();
      FillStart(embed, r0, r, cap, texts, results, misses, at);
      if misses == [] {
        ScanIsAll(embed, r0, r, cap, texts, results, at);
        return;
      }
      var computed := inner(misses);
      innerCalls := innerCalls + 1;
      assert Contents() == r;
      if |computed| != |misses| { return []; }
      for j := 0 to |misses|
        invariant Valid() && innerCalls == old(innerCalls) + 1
        invariant |results| == |texts|
        invariant Pointwise(inner, embed) && Faithful(embed, r0) ==> Filling(embed, r0, Contents(), cap, texts, results, misses, at, j)
      {
        ghost var before, had := Contents(), results;
        results := results[at[j] := computed[j]];
        Put(misses[j], computed[j]);
        if Pointwise(inner, embed) && Faithful(embed, r0) {
          assert computed[j] == embed(misses[j]);
          FillStep(embed, r0, before, cap, texts, had, misses, at, j);
        }
      }
      if Pointwise(inner, embed) && Faithful(embed, r0) {
        FillEnd(embed, r0, Contents(), cap, texts, results, misses, at);
      }
    }

    lemma ValidIsDistinct()
      requires Valid()
      ensures Distinct(Contents())
    {}
  }

  /** The same texts are there. */
  ghost predicate SameTexts(r: seq<Entry>, q: seq<Entry>) {
    forall t: string :: In(r, t) <==> In(q, t)
  }

  /** The state of the first loop after `texts`: the misses and where they were, and, if the cache was
      faithful, the vectors of the hits and the list with the hits used. */
  ghost predicate Scanned(embed: string -> Vec, r0: seq<Entry>, r: seq<Entry>, cap: nat, texts: seq<string>,
                          results: seq<Vec>, misses: seq<string>, at: seq<nat>)
  {
    && |results| == |texts| && misses == Misses(r0, texts) && Positions(r0, texts, misses, at)
    && (Faithful(embed, r0) ==> Faithful(embed, r) && r == UseAll(r0, cap, embed, Hits(r0, texts)) && Filled(embed, r0, texts, results))
  }

  /** `at` says where the misses were. */
  predicate Positions(r0: seq<Entry>, texts: seq<string>, misses: seq<string>, at: seq<nat>) {
    && |at| == |misses|
    && (forall j :: 0 <= j < |at| ==> at[j] < |texts| && texts[at[j]] == misses[j])
    && (forall k :: 0 <= k < |texts| && !In(r0, texts[k]) ==> k in at)
  }

  lemma PositionsMiss(r0: seq<Entry>, texts: seq<string>, misses: seq<string>, at: seq<nat>, t: string)
    requires Positions(r0, texts, misses, at)
    ensures Positions(r0, texts + [t], misses + [t], at + [|texts|])
  {}

  lemma FilledSnoc(embed: string -> Vec, r0: seq<Entry>, texts: seq<string>, results: seq<Vec>, t: string, v: Vec)
    requires |texts| == |results| && Filled(embed, r0, texts, results) && (In(r0, t) ==> v == embed(t))
    ensures Filled(embed, r0, texts + [t], results + [v])
  {}

  /** Each hit got its vector. */
  predicate Filled(embed: string -> Vec, r0: seq<Entry>, texts: seq<string>, results: seq<Vec>)
    requires |texts| == |results|
  {
    forall k :: 0 <= k < |texts| && In(r0, texts[k]) ==> results[k] == embed(texts[k])
  }

  lemma ScanStart(embed: string -> Vec, r0: seq<Entry>, cap: nat)
    ensures Scanned(embed, r0, r0, cap, [], [], [], []) && SameTexts(r0, r0)
  {}

  lemma ScanTexts(embed: string -> Vec, r0: seq<Entry>, cap: nat, texts: seq<string>, t: string)
    ensures Misses(r0, texts + [t]) == if In(r0, t) then Misses(r0, texts) else Misses(r0, texts) + [t]
    ensures Hits(r0, texts + [t]) == if In(r0, t) then Hits(r0, texts) + [t] else Hits(r0, texts)
    ensures UseAll(r0, cap, embed, Hits(r0, texts) + [t]) == Use(UseAll(r0, cap, embed, Hits(r0, texts)), cap, t, embed(t))
  {}

  lemma ScanHit(embed: string -> Vec, r0: seq<Entry>, r: seq<Entry>, cap: nat, texts: seq<string>,
                results: seq<Vec>, misses: seq<string>, at: seq<nat>, t: string, v: Option<Vec>, r': seq<Entry>)
    requires Scanned(embed, r0, r, cap, texts, results, misses, at) && SameTexts(r0, r)
    requires Looked(r, cap, t, v, r') && v.Some?
    ensures Scanned(embed, r0, r', cap, texts + [t], results + [v.value], misses, at)
  {}

  lemma ScanMiss(embed: string -> Vec, r0: seq<Entry>, r: seq<Entry>, cap: nat, texts: seq<string>,
                 results: seq<Vec>, misses: seq<string>, at: seq<nat>, t: string, v: Option<Vec>, r': seq<Entry>)
    requires Scanned(embed, r0, r, cap, texts, results, misses, at) && SameTexts(r0, r)
    requires Looked(r, cap, t, v, r') && v.None?
    ensures Scanned(embed, r0, r', cap, texts + [t], results + [[]], misses + [t], at + [|texts|])
  {
    hide Use, In, Faithful, Misses, Hits, UseAll, Positions, Filled;
    ScanTexts(embed, r0, cap, texts, t);
    PositionsMiss(r0, texts, misses, at, t);
    if Faithful(embed, r0) { FilledSnoc(embed, r0, texts, results, t, []); }
  }

  lemma UseFaithful(embed: string -> Vec, r: seq<Entry>, cap: nat, t: string)
    requires Faithful(embed, r)
    ensures Faithful(embed, Use(r, cap, t, embed(t)))
    ensures IndexOf(r, t) < |r| ==> r[IndexOf(r, t)].1 == embed(t)
  {}

  lemma LookKeepsTexts(r0: seq<Entry>, r: seq<Entry>, cap: nat, t: string, v: Option<Vec>, r': seq<Entry>)
    requires SameTexts(r0, r) && Distinct(r) && Looked(r, cap, t, v, r')
    ensures SameTexts(r0, r')
  {
    if In(r, t) {
      forall x: string ensures In(r0, x) <==> In(r', x) { MovedIndex(r, IndexOf(r, t), r[IndexOf(r, t)].1, x); }
    }
  }

  /** The state of the second loop after `j` misses. */
  ghost predicate Filling(embed: string -> Vec, r0: seq<Entry>, r: seq<Entry>, cap: nat, texts: seq<string>,
                          results: seq<Vec>, misses: seq<string>, at: seq<nat>, j: nat)
  {
    && j <= |misses| && |results| == |texts| && misses == Misses(r0, texts) && Positions(r0, texts, misses, at)
    && Faithful(embed, r) && r == UseAll(r0, cap, embed, Hits(r0, texts) + misses[..j])
    && Filled(embed, r0, texts, results) && (forall n :: 0 <= n < j ==> results[at[n]] == embed(texts[at[n]]))
  }

  lemma ScanIsAll(embed: string -> Vec, r0: seq<Entry>, r: seq<Entry>, cap: nat, texts: seq<string>,
                  results: seq<Vec>, at: seq<nat>)
    requires Scanned(embed, r0, r, cap, texts, results, [], at)
    ensures Misses(r0, texts) == []
    ensures Faithful(embed, r0) ==>
      && Faithful(embed, r) && r == Batched(r0, cap, embed, texts)
      && |results| == |texts| && forall i :: 0 <= i < |texts| ==> results[i] == embed(texts[i])
  {
    hide In, UseAll, Hits, Misses;
    assert Hits(r0, texts) + [] == Hits(r0, texts);
  }

  lemma FillStart(embed: string -> Vec, r0: seq<Entry>, r: seq<Entry>, cap: nat, texts: seq<string>,
                  results: seq<Vec>, misses: seq<string>, at: seq<nat>)
    requires Scanned(embed, r0, r, cap, texts, results, misses, at)
    ensures Faithful(embed, r0) ==> Filling(embed, r0, r, cap, texts, results, misses, at, 0)
    ensures misses == Misses(r0, texts) && |results| == |texts| && |at| == |misses| && forall n :: 0 <= n < |at| ==> at[n] < |texts|
  {
    hide In, UseAll, Hits, Misses;
    assert Hits(r0, texts) + misses[..0] == Hits(r0, texts);
  }

  lemma FillStep(embed: string -> Vec, r0: seq<Entry>, r: seq<Entry>, cap: nat, texts: seq<string>,
                 results: seq<Vec>, misses: seq<string>, at: seq<nat>, j: nat)
    requires Filling(embed, r0, r, cap, texts, results, misses, at, j) && j < |misses|
    ensures Filling(embed, r0, Use(r, cap, misses[j], embed(misses[j])), cap, texts, results[at[j] := embed(misses[j])], misses, at, j + 1)
  {
    hide In, Hits, Misses, Use;
    UseFaithful(embed, r, cap, misses[j]);
    var uses := Hits(r0, texts) + misses[..j + 1];
    assert uses[..|uses| - 1] == Hits(r0, texts) + misses[..j];
  }

  lemma FillEnd(embed: string -> Vec, r0: seq<Entry>, r: seq<Entry>, cap: nat, texts: seq<string>,
                results: seq<Vec>, misses: seq<string>, at: seq<nat>)
    requires Filling(embed, r0, r, cap, texts, results, misses, at, |misses|)
    ensures Faithful(embed, r) && r == Batched(r0, cap, embed, texts)
    ensures |results| == |texts| && forall i :: 0 <= i < |texts| ==> results[i] == embed(texts[i])
  {
    hide In, UseAll, Hits, Misses;
    assert misses[..|misses|] == misses;
  }
}
