/** Chunked embedding in src/llama_provider.cpp: texts are packed into chunks within a token and a
    sequence limit, laid out in flat arrays, encoded chunk by chunk, and the vectors put back at the
    index of their text. Tokenising and encoding are the model's; they are parameters here. */
module Llama {

  import opened Wrappers
  import opened Sink

  /** A tokenised text; `ok` is false when tokenising failed or the text is too long. */
  datatype Item = Item(index: nat, tokens: seq<int>, ok: bool)

  /** One slot of the batch: a token, its position in its sequence, and the sequence. */
  datatype Cell = Cell(token: int, pos: nat, owner: nat)

  /** The foreign encoder: whether it succeeds on a batch, and the embeddings it then holds, by sequence
      or else by token. */
  datatype Encoder = Encoder(ok: seq<Cell> -> bool, bySeq: (seq<Cell>, nat) -> Option<Vec>, byToken: (seq<Cell>, nat) -> Option<Vec>)

  predicate Usable(it: Item) {
    it.ok && it.tokens != []
  }

  function Cells(it: Item, s: nat): seq<Cell> {
    if Usable(it) then seq(|it.tokens|, p requires 0 <= p < |it.tokens| => Cell(it.tokens[p], p, s)) else []
  }

  /** The batch of a chunk. */
  function Layout(items: seq<Item>): seq<Cell> {
    if items == [] then [] else Layout(items[..|items| - 1]) + Cells(items[|items| - 1], |items| - 1)
  }

  function Total(items: seq<Item>): nat {
    if items == [] then 0
    else Total(items[..|items| - 1]) + (if Usable(items[|items| - 1]) then |items[|items| - 1].tokens| else 0)
  }

  /** The tokens of one sequence, read off a batch. */
  function TokensOf(cells: seq<Cell>, s: nat): seq<int> {
    if cells == [] then []
    else TokensOf(cells[..|cells| - 1], s) + (if cells[|cells| - 1].owner == s then [cells[|cells| - 1].token] else [])
  }

  lemma {:induction false} LayoutSize(items: seq<Item>)
    ensures |Layout(items)| == Total(items)
  {
    if items != [] { LayoutSize(items[..|items| - 1]); }
  }

  lemma {:induction false} TokensConcat(a: seq<Cell>, b: seq<Cell>, s: nat)
    ensures TokensOf(a + b, s) == TokensOf(a, s) + TokensOf(b, s)
  {
    if b == [] {
      assert a + b == a;
    } else {
      var n := |b| - 1;
      assert (a + b)[..|a + b| - 1] == a + b[..n] && (a + b)[|a + b| - 1] == b[n];
      TokensConcat(a, b[..n], s);
    }
  }

  lemma {:induction false} TokensOfOne(cells: seq<Cell>, tokens: seq<int>, s: nat, t: nat)
    requires |cells| == |tokens| && forall p :: 0 <= p < |cells| ==> cells[p].token == tokens[p] && cells[p].owner == s
    ensures TokensOf(cells, t) == if s == t then tokens else []
  {
    if cells != [] {
      var n := |cells| - 1;
      TokensOfOne(cells[..n], tokens[..n], s, t);
      assert tokens == tokens[..n] + [tokens[n]];
    }
  }

  /** Each sequence of the batch carries the tokens of its text, and no others. */
  lemma {:induction false} LayoutKeepsTokens(items: seq<Item>, s: nat)
    ensures TokensOf(Layout(items), s) == if s < |items| && Usable(items[s]) then items[s].tokens else []
  {
    if items != [] {
      var n := |items| - 1;
      LayoutKeepsTokens(items[..n], s);
      TokensConcat(Layout(items[..n]), Cells(items[n], n), s);
      if Usable(items[n]) { TokensOfOne(Cells(items[n], n), items[n].tokens, n, s); }
    }
  }

  /** The positions of each sequence are 0, 1, 2 and so on: a slot's position is the number of slots of its
      sequence before it. */
  lemma {:induction false} LayoutCounts(items: seq<Item>, i: nat)
    requires i < |Layout(items)|
    ensures var cells := Layout(items); cells[i].pos == |TokensOf(cells[..i], cells[i].owner)|
  {
    var n := |items| - 1;
    var before, cells := Layout(items[..n]), Layout(items);
    if i < |before| {
      LayoutCounts(items[..n], i);
      assert cells[..i] == before[..i];
    } else {
      var own := Cells(items[n], n)[..i - |before|];
      assert cells[..i] == before + own;
      TokensConcat(before, own, n);
      LayoutKeepsTokens(items[..n], n);
      TokensOfOne(own, items[n].tokens[..i - |before|], n, n);
    }
  }

  /** The last token of a usable text has a slot, and only one slot looks like it. */
  lemma {:induction false} LastSlot(items: seq<Item>, s: nat) returns (i: nat)
    requires s < |items| && Usable(items[s])
    ensures i < |Layout(items)| && Layout(items)[i].owner == s && Layout(items)[i].pos == |items[s].tokens| - 1
  {
    var n := |items| - 1;
    if s < n {
      i := LastSlot(items[..n], s);
    } else {
      i := |Layout(items[..n])| + |items[s].tokens| - 1;
    }
  }

  // ---------- filling the batch ----------

  function Upto(n: nat): seq<int> { seq(n, p => p) }

  function Copies(s: nat, n: nat): seq<int> { seq(n, p => s) }

  /** One sequence: its tokens in order, positions from zero, all owned by it. */
  method FillSequence(tokens: seq<int>, s: nat, token: array<int>, pos: array<int>, owner: array<int>, n: nat)
    requires token != pos && pos != owner && token != owner
    requires token.Length == pos.Length == owner.Length && n + |tokens| <= token.Length
    modifies token, pos, owner
    ensures token[..n + |tokens|] == old(token[..n]) + tokens
    ensures pos[..n + |tokens|] == old(pos[..n]) + Upto(|tokens|)
    ensures owner[..n + |tokens|] == old(owner[..n]) + Copies(s, |tokens|)
  {
    for p := 0 to |tokens|
      invariant token[..n] == old(token[..n]) && pos[..n] == old(pos[..n]) && owner[..n] == old(owner[..n])
      invariant forall k :: n <= k < n + p ==> token[k] == tokens[k - n]
      invariant forall k :: n <= k < n + p ==> pos[k] == k - n
      invariant forall k :: n <= k < n + p ==> owner[k] == s
    {
      token[n + p], pos[n + p], owner[n + p] := tokens[p], p, s;
    }
    var m := n + |tokens|;
    assert token[..m] == token[..n] + tokens;
    assert pos[..m] == pos[..n] + Upto(|tokens|);
    assert owner[..m] == owner[..n] + Copies(s, |tokens|);
  }

  lemma CellsInAppend(token: seq<int>, pos: seq<int>, owner: seq<int>, cells: seq<Cell>, it: Item, s: nat)
    requires CellsIn(token, pos, owner, cells) && Usable(it)
    ensures CellsIn(token + it.tokens, pos + Upto(|it.tokens|), owner + Copies(s, |it.tokens|), cells + Cells(it, s))
  {}

  /** Adds one text; nothing for one that cannot be used. */
  method AddItem(items: seq<Item>, s: nat, token: array<int>, pos: array<int>, owner: array<int>, n: nat) returns (n': nat)
    requires token != pos && pos != owner && token != owner
    requires token.Length == pos.Length == owner.Length == Total(items) && s < |items| && n == Total(items[..s]) <= token.Length
    requires CellsIn(token[..n], pos[..n], owner[..n], Layout(items[..s]))
    modifies token, pos, owner
    ensures n' == Total(items[..s + 1]) <= token.Length
    ensures CellsIn(token[..n'], pos[..n'], owner[..n'], Layout(items[..s + 1]))
  {
    hide *;
    LayoutStep(items, s);
    n' := n;
    if Usable(items[s]) {
      CellsInAppend(token[..n], pos[..n], owner[..n], Layout(items[..s]), items[s], s);
      FillSequence(items[s].tokens, s, token, pos, owner, n);
      n' := n + |items[s].tokens|;
    }
  }

  /** Fills the flat arrays; `n` slots are used. */
  method BuildBatch(items: seq<Item>, token: array<int>, pos: array<int>, owner: array<int>) returns (n: nat)
    requires token != pos && pos != owner && token != owner
    requires token.Length == pos.Length == owner.Length == Total(items)
    modifies token, pos, owner
    ensures n == token.Length && CellsIn(token[..], pos[..], owner[..], Layout(items))
  {
    n := 0;
    assert items[..0] == [] && token[..0] == [] && pos[..0] == [] && owner[..0] == [];
    assert CellsIn([], [], [], Layout([]));
    hide *;
    for s := 0 to |items|
      invariant n == Total(items[..s]) <= token.Length
      invariant CellsIn(token[..n], pos[..n], owner[..n], Layout(items[..s]))
    {
      n := AddItem(items, s, token, pos, owner, n);
    }
    assert items[..|items|] == items;
    assert token[..n] == token[..] && pos[..n] == pos[..] && owner[..n] == owner[..];
  }

  lemma LayoutStep(items: seq<Item>, s: nat)
    requires s < |items|
    ensures Usable(items[s]) ==> Layout(items[..s + 1]) == Layout(items[..s]) + Cells(items[s], s)
    ensures !Usable(items[s]) ==> Layout(items[..s + 1]) == Layout(items[..s])
    ensures Total(items[..s + 1]) == Total(items[..s]) + (if Usable(items[s]) then |items[s].tokens| else 0)
    ensures Total(items[..s + 1]) <= Total(items)
  {
    assert items[..s + 1][..s] == items[..s];
    TotalGrows(items, s + 1);
  }

  /** The arrays hold the cells. */
  ghost predicate CellsIn(token: seq<int>, pos: seq<int>, owner: seq<int>, cells: seq<Cell>) {
    && |token| == |pos| == |owner| == |cells|
    && forall i :: 0 <= i < |cells| ==> token[i] == cells[i].token && pos[i] == cells[i].pos && owner[i] == cells[i].owner
  }

  lemma {:induction false} TotalGrows(items: seq<Item>, n: nat)
    requires n <= |items|
    ensures Total(items[..n]) <= Total(items)
  {
    if n < |items| {
      assert items[..|items| - 1][..n] == items[..n];
      TotalGrows(items[..|items| - 1], n);
    } else {
      assert items[..n] == items;
    }
  }

  // ---------- taking the vectors out ----------

  /** The encoder embeds each sequence by its own tokens, whatever it is batched with: it has a vector for
      the sequence, or else one at its last token. */
  ghost predicate PerSequence(e: Encoder, enc: seq<int> -> Vec) {
    forall cells: seq<Cell>, s: nat :: TokensOf(cells, s) != [] ==>
      || e.bySeq(cells, s) == Some(enc(TokensOf(cells, s)))
      || (e.bySeq(cells, s) == None && LastTokens(e, enc, cells, s))
  }

  ghost predicate LastTokens(e: Encoder, enc: seq<int> -> Vec, cells: seq<Cell>, s: nat) {
    forall i :: 0 <= i < |cells| && cells[i].owner == s && cells[i].pos == |TokensOf(cells, s)| - 1 ==>
      e.byToken(cells, i) == Some(enc(TokensOf(cells, s)))
  }

  /** The slot of a sequence's last token, searched from the front. */
  method FindLast(cells: seq<Cell>, s: nat, len: nat) returns (i: nat)
    ensures i <= |cells| && (i < |cells| ==> cells[i].owner == s && cells[i].pos == len - 1)
    ensures i == |cells| ==> forall k :: 0 <= k < |cells| ==> !(cells[k].owner == s && cells[k].pos == len - 1)
  {
    i := 0;
    while i < |cells| && !(cells[i].owner == s && cells[i].pos == len - 1)
      invariant i <= |cells| && forall k :: 0 <= k < i ==> !(cells[k].owner == s && cells[k].pos == len - 1)
    {
      i := i + 1;
    }
  }

  /** The vector of one sequence of the batch. */
  method ExtractOne(e: Encoder, ghost enc: seq<int> -> Vec, cells: seq<Cell>, items: seq<Item>, s: nat) returns (v: Vec)
    requires s < |items| && Usable(items[s]) && cells == Layout(items)
    ensures PerSequence(e, enc) ==> v == enc(items[s].tokens)
  {
    LayoutKeepsTokens(items, s);
    var found := e.bySeq(cells, s);
    if found.None? {
      var i := FindLast(cells, s, |items[s].tokens|);
      ghost var at := LastSlot(items, s);
      if i < |cells| { found := e.byToken(cells, i); }
      assert PerSequence(e, enc) ==> LastTokens(e, enc, cells, s);
    }
    return if found.Some? then found.value else [];
  }

  /** The vectors of a chunk, by sequence. */
  method Extract(e: Encoder, ghost enc: seq<int> -> Vec, cells: seq<Cell>, items: seq<Item>) returns (results: seq<Vec>)
    requires cells == Layout(items) && forall s :: 0 <= s < |items| ==> Usable(items[s])
    ensures |results| == |items|
    ensures PerSequence(e, enc) ==> forall s :: 0 <= s < |items| ==> results[s] == enc(items[s].tokens)
  {
    results := [];
    for s := 0 to |items|
      invariant |results| == s
      invariant PerSequence(e, enc) ==> forall k :: 0 <= k < s ==> results[k] == enc(items[k].tokens)
    {
      hide PerSequence;
      var v := ExtractOne(e, enc, cells, items, s);
      results := results + [v];
    }
  }

  // ---------- packing ----------

  predicate Fits(it: Item, maxTokens: int) {
    Usable(it) && |it.tokens| <= maxTokens
  }

  /** The texts that are encoded at all, in order. */
  function Fitting(items: seq<Item>, maxTokens: int): seq<Item> {
    if items == [] then []
    else Fitting(items[..|items| - 1], maxTokens) + (if Fits(items[|items| - 1], maxTokens) then [items[|items| - 1]] else [])
  }

  predicate WithinLimits(chunk: seq<Item>, maxSeq: int, maxTokens: int) {
    && chunk != [] && |chunk| <= maxSeq && Total(chunk) <= maxTokens
    && forall k :: 0 <= k < |chunk| ==> Fits(chunk[k], maxTokens)
  }

  /** The vector of a text on its own. */
  function Alone(enc: seq<int> -> Vec, it: Item, maxTokens: int): Vec {
    if Fits(it, maxTokens) then enc(it.tokens) else []
  }

  /** What the encoder reads from the arrays. */
  method ReadCells(token: seq<int>, pos: seq<int>, owner: seq<int>, ghost cells: seq<Cell>) returns (r: seq<Cell>)
    requires CellsIn(token, pos, owner, cells)
    ensures r == cells
  {
    r := [];
    for i := 0 to |token|
      invariant r == cells[..i]
    {
      r := r + [Cell(token[i], pos[i], owner[i])];
    }
  }

  /** Encodes one chunk and puts its vectors back at the texts' indices; a failed chunk leaves them
      empty. */
  method FlushChunk(e: Encoder, ghost enc: seq<int> -> Vec, chunk: seq<Item>, results: seq<Vec>)
    returns (results': seq<Vec>)
    requires forall k :: 0 <= k < |chunk| ==> Usable(chunk[k]) && chunk[k].index < |results|
    requires forall j, k :: 0 <= j < k < |chunk| ==> chunk[j].index < chunk[k].index
    ensures |results'| == |results| && (PerSequence(e, enc) ==> Flushed(e, enc, chunk, results, results'))
  {
    results' := results;
    var total := Total(chunk);
    var token, pos, owner := new int[total], new int[total], new int[total];
    var n := BuildBatch(chunk, token, pos, owner);
    var cells := ReadCells(token[..], pos[..], owner[..], Layout(chunk));
    if !e.ok(cells) { return; }
    var vecs := Extract(e, enc, cells, chunk);
    for i := 0 to |chunk|
      invariant |results'| == |results|
      invariant forall m: nat :: m < |results| && !Mentions(chunk, m) ==> results'[m] == results[m]
      invariant forall k :: 0 <= k < i ==> results'[chunk[k].index] == vecs[k]
    {
      assert Mentions(chunk, chunk[i].index);
      results' := results'[chunk[i].index := vecs[i]];
    }
  }

  /** Each text of the chunk has its vector, or none if the chunk failed. */
  ghost predicate ChunkPlaced(e: Encoder, enc: seq<int> -> Vec, chunk: seq<Item>, results: seq<Vec>) {
    forall k :: 0 <= k < |chunk| ==>
      chunk[k].index < |results| && results[chunk[k].index] == if e.ok(Layout(chunk)) then enc(chunk[k].tokens) else []
  }

  ghost predicate Placed(e: Encoder, enc: seq<int> -> Vec, chunks: seq<seq<Item>>, results: seq<Vec>) {
    forall c :: 0 <= c < |chunks| ==> ChunkPlaced(e, enc, chunks[c], results)
  }

  /** Indices grow along the chunk and stay between `lo` and `hi`. */
  predicate Ascending(chunk: seq<Item>, lo: nat, hi: nat) {
    && (forall k :: 0 <= k < |chunk| ==> lo <= chunk[k].index < hi)
    && (forall j, k :: 0 <= j < k < |chunk| ==> chunk[j].index < chunk[k].index)
  }

  predicate Mentions(chunk: seq<Item>, n: nat) {
    exists k :: 0 <= k < |chunk| && chunk[k].index == n
  }

  /** Flushed texts have indices below `lo`, and only they have results. */
  ghost predicate Untouched(chunks: seq<seq<Item>>, results: seq<Vec>, lo: nat) {
    && (forall c, n: nat :: 0 <= c < |chunks| && Mentions(chunks[c], n) ==> n < lo)
    && (forall n: nat :: n < |results| && results[n] != [] ==> exists c :: 0 <= c < |chunks| && Mentions(chunks[c], n))
  }

  /** What flushing one chunk does to the results. */
  ghost predicate Flushed(e: Encoder, enc: seq<int> -> Vec, chunk: seq<Item>, results: seq<Vec>, results': seq<Vec>) {
    && |results'| == |results|
    && (forall n: nat :: n < |results| && !Mentions(chunk, n) ==> results'[n] == results[n])
    && (!e.ok(Layout(chunk)) ==> results' == results)
    && (e.ok(Layout(chunk)) ==> ChunkPlaced(e, enc, chunk, results'))
  }

  lemma ChunkKept(e: Encoder, enc: seq<int> -> Vec, prev: seq<Item>, chunk: seq<Item>, results: seq<Vec>,
                  results': seq<Vec>, lo: nat, hi: nat)
    requires ChunkPlaced(e, enc, prev, results) && (forall n: nat :: Mentions(prev, n) ==> n < lo) && Ascending(chunk, lo, hi)
    requires Flushed(e, enc, chunk, results, results')
    ensures ChunkPlaced(e, enc, prev, results')
  {
    hide Layout;
    forall k | 0 <= k < |prev| ensures results'[prev[k].index] == results[prev[k].index] {
      assert Mentions(prev, prev[k].index);
      assert !Mentions(chunk, prev[k].index);
    }
  }

  lemma FailedPlaced(e: Encoder, enc: seq<int> -> Vec, chunks: seq<seq<Item>>, chunk: seq<Item>,
                     results: seq<Vec>, lo: nat, hi: nat)
    requires Untouched(chunks, results, lo) && Ascending(chunk, lo, hi) && hi <= |results| && !e.ok(Layout(chunk))
    ensures ChunkPlaced(e, enc, chunk, results)
  {}

  /** Flushing adds a chunk above everything flushed before. */
  lemma FlushAdds(e: Encoder, enc: seq<int> -> Vec, chunks: seq<seq<Item>>, chunk: seq<Item>, results: seq<Vec>,
                  results': seq<Vec>, lo: nat, hi: nat)
    requires Placed(e, enc, chunks, results) && Untouched(chunks, results, lo) && Ascending(chunk, lo, hi)
    requires lo <= hi <= |results|
    requires Flushed(e, enc, chunk, results, results')
    ensures Placed(e, enc, chunks + [chunk], results') && Untouched(chunks + [chunk], results', hi)
  {
    hide Layout, ChunkPlaced;
    var all: seq<seq<Item>> := chunks + [chunk];
    forall c | 0 <= c < |all| ensures ChunkPlaced(e, enc, all[c], results') {
      if c < |chunks| { ChunkKept(e, enc, chunks[c], chunk, results, results', lo, hi); }
      else if !e.ok(Layout(chunk)) { FailedPlaced(e, enc, chunks, chunk, results, lo, hi); }
    }
    forall n: nat | n < |results'| && results'[n] != [] ensures exists c :: 0 <= c < |all| && Mentions(all[c], n) {
      if Mentions(chunk, n) {
        assert Mentions(all[|chunks|], n);
      } else {
        var c :| 0 <= c < |chunks| && Mentions(chunks[c], n);
        assert Mentions(all[c], n);
      }
    }
  }

  /** The state of the packing loop after the first `i` texts. */
  ghost predicate Packing(e: Encoder, enc: seq<int> -> Vec, items: seq<Item>, i: nat, maxSeq: int, maxTokens: int,
                          chunks: seq<seq<Item>>, chunk: seq<Item>, results: seq<Vec>, lo: nat)
  {
    && |results| == |items| && lo <= i <= |items| && Ascending(chunk, lo, i)
    && Flatten(chunks) + chunk == Fitting(items[..i], maxTokens)
    && (chunk != [] ==> WithinLimits(chunk, maxSeq, maxTokens))
    && (forall c :: 0 <= c < |chunks| ==> WithinLimits(chunks[c], maxSeq, maxTokens))
    && (PerSequence(e, enc) ==> Placed(e, enc, chunks, results) && Untouched(chunks, results, lo))
  }

  lemma PackStart(e: Encoder, enc: seq<int> -> Vec, items: seq<Item>, maxSeq: int, maxTokens: int, results: seq<Vec>)
    requires |results| == |items| && forall n :: 0 <= n < |items| ==> results[n] == []
    ensures Packing(e, enc, items, 0, maxSeq, maxTokens, [], [], results, 0) && Total([]) == 0
  {}

  lemma PackFlush(e: Encoder, enc: seq<int> -> Vec, items: seq<Item>, i: nat, maxSeq: int, maxTokens: int,
                  chunks: seq<seq<Item>>, chunk: seq<Item>, results: seq<Vec>, lo: nat, results': seq<Vec>)
    requires Packing(e, enc, items, i, maxSeq, maxTokens, chunks, chunk, results, lo) && chunk != []
    requires |results'| == |results| && (PerSequence(e, enc) ==> Flushed(e, enc, chunk, results, results'))
    ensures Packing(e, enc, items, i, maxSeq, maxTokens, chunks + [chunk], [], results', i)
  {
    hide PerSequence, Placed, Untouched, Flushed, WithinLimits;
    FlattenSnoc(chunks, chunk);
    if PerSequence(e, enc) { FlushAdds(e, enc, chunks, chunk, results, results', lo, i); }
  }

  lemma PackSkip(e: Encoder, enc: seq<int> -> Vec, items: seq<Item>, i: nat, maxSeq: int, maxTokens: int,
                 chunks: seq<seq<Item>>, chunk: seq<Item>, results: seq<Vec>, lo: nat)
    requires Packing(e, enc, items, i, maxSeq, maxTokens, chunks, chunk, results, lo) && i < |items|
    requires !Fits(items[i], maxTokens)
    ensures Packing(e, enc, items, i + 1, maxSeq, maxTokens, chunks, chunk, results, lo)
  {
    hide PerSequence, Placed, Untouched, WithinLimits, Flatten, Fitting;
    FittingSkip(items, i, maxTokens);
  }

  lemma FittingSkip(items: seq<Item>, i: nat, maxTokens: int)
    requires i < |items| && !Fits(items[i], maxTokens)
    ensures Fitting(items[..i + 1], maxTokens) == Fitting(items[..i], maxTokens)
  {
    assert items[..i + 1][..i] == items[..i];
  }

  lemma PackAdd(e: Encoder, enc: seq<int> -> Vec, items: seq<Item>, i: nat, maxSeq: int, maxTokens: int,
                chunks: seq<seq<Item>>, chunk: seq<Item>, results: seq<Vec>, lo: nat)
    requires Packing(e, enc, items, i, maxSeq, maxTokens, chunks, chunk, results, lo) && i < |items|
    requires Fits(items[i], maxTokens)
    requires items[i].index == i && |chunk| < maxSeq && Total(chunk) + |items[i].tokens| <= maxTokens
    ensures Packing(e, enc, items, i + 1, maxSeq, maxTokens, chunks, chunk + [items[i]], results, lo)
    ensures Total(chunk + [items[i]]) == Total(chunk) + |items[i].tokens|
  {
    hide PerSequence, Placed, Untouched, WithinLimits, Ascending, Total, Flatten, Fitting;
    TotalSnoc(chunk, items[i]);
    LimitsSnoc(chunk, items[i], maxSeq, maxTokens);
    AscendingSnoc(chunk, items[i], lo, i);
    FittingStep(items, i, maxTokens, Flatten(chunks), chunk);
  }

  lemma FittingStep(items: seq<Item>, i: nat, maxTokens: int, flat: seq<Item>, chunk: seq<Item>)
    requires i < |items| && Fits(items[i], maxTokens) && flat + chunk == Fitting(items[..i], maxTokens)
    ensures flat + (chunk + [items[i]]) == Fitting(items[..i + 1], maxTokens)
  {
    assert items[..i + 1][..i] == items[..i];
    assert flat + (chunk + [items[i]]) == flat + chunk + [items[i]];
  }

  lemma LimitsSnoc(chunk: seq<Item>, it: Item, maxSeq: int, maxTokens: int)
    requires (chunk != [] ==> WithinLimits(chunk, maxSeq, maxTokens)) && Fits(it, maxTokens)
    requires |chunk| < maxSeq && Total(chunk) + |it.tokens| <= maxTokens
    ensures WithinLimits(chunk + [it], maxSeq, maxTokens)
  {}

  lemma AscendingSnoc(chunk: seq<Item>, it: Item, lo: nat, i: nat)
    requires Ascending(chunk, lo, i) && it.index == i && lo <= i
    ensures Ascending(chunk + [it], lo, i + 1)
  {}

  /** What a chunk in the making satisfies. */
  lemma PackChunk(e: Encoder, enc: seq<int> -> Vec, items: seq<Item>, i: nat, maxSeq: int, maxTokens: int,
                  chunks: seq<seq<Item>>, chunk: seq<Item>, results: seq<Vec>, lo: nat)
    requires Packing(e, enc, items, i, maxSeq, maxTokens, chunks, chunk, results, lo)
    ensures |results| == |items| && (forall k :: 0 <= k < |chunk| ==> Usable(chunk[k]) && chunk[k].index < |results|)
    ensures forall j, k :: 0 <= j < k < |chunk| ==> chunk[j].index < chunk[k].index
  {}

  lemma PackEnd(e: Encoder, enc: seq<int> -> Vec, items: seq<Item>, maxSeq: int, maxTokens: int,
                chunks: seq<seq<Item>>, results: seq<Vec>, lo: nat)
    requires Packing(e, enc, items, |items|, maxSeq, maxTokens, chunks, [], results, lo)
    requires forall i :: 0 <= i < |items| ==> items[i].index == i
    ensures |results| == |items| && Flatten(chunks) == Fitting(items, maxTokens)
    ensures forall c :: 0 <= c < |chunks| ==> WithinLimits(chunks[c], maxSeq, maxTokens)
    ensures PerSequence(e, enc) ==> Placed(e, enc, chunks, results)
    ensures PerSequence(e, enc) && (forall cells :: e.ok(cells)) ==>
      forall i :: 0 <= i < |items| ==> results[i] == Alone(enc, items[i], maxTokens)
  {
    assert items[..|items|] == items && Flatten(chunks) + [] == Flatten(chunks);
    hide Placed, PerSequence, Alone, WithinLimits, Flatten, Fitting;
    if PerSequence(e, enc) && (forall cells :: e.ok(cells)) {
      UntouchedTo(chunks, results, lo, |items|);
      forall i | 0 <= i < |items| ensures results[i] == Alone(enc, items[i], maxTokens) {
        EachPlaced(e, enc, items, maxTokens, chunks, results, i);
      }
    }
  }

  lemma UntouchedTo(chunks: seq<seq<Item>>, results: seq<Vec>, lo: nat, hi: nat)
    requires Untouched(chunks, results, lo) && lo <= hi
    ensures Untouched(chunks, results, hi)
  {}

  /** The first text of the next chunk did not fit into this one any more. */
  predicate NoRoom(chunk: seq<Item>, next: seq<Item>, maxSeq: int, maxTokens: int) {
    next != [] && (Total(chunk) + |next[0].tokens| > maxTokens || |chunk| >= maxSeq)
  }

  /** Chunks are as full as the order of the texts allows. */
  ghost predicate Greedy(chunks: seq<seq<Item>>, maxSeq: int, maxTokens: int) {
    forall c :: 0 <= c < |chunks| - 1 ==> NoRoom(chunks[c], chunks[c + 1], maxSeq, maxTokens)
  }

  /** The next text goes into the last chunk, or begins another one because it does not fit. */
  lemma GreedyAdd(chunks: seq<seq<Item>>, chunk: seq<Item>, it: Item, maxSeq: int, maxTokens: int)
    requires Greedy(chunks + [chunk], maxSeq, maxTokens)
    ensures chunk != [] ==> Greedy(chunks + [chunk + [it]], maxSeq, maxTokens)
    ensures NoRoom(chunk, [it], maxSeq, maxTokens) ==> Greedy(chunks + [chunk] + [[it]], maxSeq, maxTokens)
  {
    hide Total;
    var old0 := chunks + [chunk];
    if chunk != [] {
      var more := chunks + [chunk + [it]];
      forall c | 0 <= c < |more| - 1 ensures NoRoom(more[c], more[c + 1], maxSeq, maxTokens) {
        assert NoRoom(old0[c], old0[c + 1], maxSeq, maxTokens);
      }
    }
    if NoRoom(chunk, [it], maxSeq, maxTokens) {
      var more := old0 + [[it]];
      forall c | 0 <= c < |more| - 1 ensures NoRoom(more[c], more[c + 1], maxSeq, maxTokens) {
        if c < |chunks| { assert NoRoom(old0[c], old0[c + 1], maxSeq, maxTokens); }
      }
    }
  }

  lemma GreedyStart(it: Item, maxSeq: int, maxTokens: int)
    ensures Greedy([[it]], maxSeq, maxTokens) && Greedy([], maxSeq, maxTokens)
  {}

  lemma NoRoomIs(chunk: seq<Item>, it: Item, maxSeq: int, maxTokens: int)
    ensures NoRoom(chunk, [it], maxSeq, maxTokens) <==> Total(chunk) + |it.tokens| > maxTokens || |chunk| >= maxSeq
  {}

  /** The batch: full chunks within both limits, every text that fits in exactly one of them and in order,
      each vector at its text's index. With an encoder that does not fail, that is each text's vector on
      its own. */
  method EmbedBatch(e: Encoder, ghost enc: seq<int> -> Vec, items: seq<Item>, seqLimit: int, maxTokens: int)
    returns (results: seq<Vec>, ghost chunks: seq<seq<Item>>)
    requires forall i :: 0 <= i < |items| ==> items[i].index == i
    ensures |results| == |items| && Flatten(chunks) == Fitting(items, maxTokens)
    ensures forall c :: 0 <= c < |chunks| ==> WithinLimits(chunks[c], if seqLimit > 1 then seqLimit else 1, maxTokens)
    ensures Greedy(chunks, if seqLimit > 1 then seqLimit else 1, maxTokens)
    ensures PerSequence(e, enc) ==> Placed(e, enc, chunks, results)
    ensures PerSequence(e, enc) && (forall cells :: e.ok(cells)) ==>
      forall i :: 0 <= i < |items| ==> results[i] == Alone(enc, items[i], maxTokens)
  {
    hide *;
    var maxSeq := if seqLimit > 1 then seqLimit else 1;
    results, chunks := seq(|items|, i => []), [];
    var chunk: seq<Item>, chunkTokens := [], 0;
    ghost var lo := 0;
    PackStart(e, enc, items, maxSeq, maxTokens, results);
    GreedyStart(Item(0, [], false), maxSeq, maxTokens);
    for i := 0 to |items|
      invariant Packing(e, enc, items, i, maxSeq, maxTokens, chunks, chunk, results, lo) && chunkTokens == Total(chunk)
      invariant chunk == [] ==> chunks == []
      invariant chunk != [] ==> Greedy(chunks + [chunk], maxSeq, maxTokens)
    {
      var it := items[i];
      if !it.ok || it.tokens == [] || |it.tokens| > maxTokens {
        FitsIff(it, maxTokens);
        PackSkip(e, enc, items, i, maxSeq, maxTokens, chunks, chunk, results, lo);
        continue;
      }
      FitsIff(it, maxTokens);
      GreedyStart(it, maxSeq, maxTokens);
      NoRoomIs(chunk, it, maxSeq, maxTokens);
      if chunk != [] { GreedyAdd(chunks, chunk, it, maxSeq, maxTokens); }
      if chunk != [] && (chunkTokens + |it.tokens| > maxTokens || |chunk| >= maxSeq) {
        PackChunk(e, enc, items, i, maxSeq, maxTokens, chunks, chunk, results, lo);
        var results' := FlushChunk(e, enc, chunk, results);
        PackFlush(e, enc, items, i, maxSeq, maxTokens, chunks, chunk, results, lo, results');
        results, chunks, chunk, chunkTokens, lo := results', chunks + [chunk], [], 0, i;
      }
      PackAdd(e, enc, items, i, maxSeq, maxTokens, chunks, chunk, results, lo);
      chunkTokens := chunkTokens + |it.tokens|;
      assert chunk == [] ==> chunk + [it] == [it] && (chunks == [] ==> chunks + [[it]] == [[it]]);
      chunk := chunk + [it];
    }
    if chunk != [] {
      PackChunk(e, enc, items, |items|, maxSeq, maxTokens, chunks, chunk, results, lo);
      var results' := FlushChunk(e, enc, chunk, results);
      PackFlush(e, enc, items, |items|, maxSeq, maxTokens, chunks, chunk, results, lo, results');
      results, chunks, lo := results', chunks + [chunk], |items|;
    }
    PackEnd(e, enc, items, maxSeq, maxTokens, chunks, results, lo);
  }

  lemma FitsIff(it: Item, maxTokens: int)
    ensures Fits(it, maxTokens) <==> it.ok && it.tokens != [] && |it.tokens| <= maxTokens
    ensures Total([]) == 0
  {}

  lemma {:induction false} InFitting(items: seq<Item>, maxTokens: int, i: nat)
    requires i < |items| && Fits(items[i], maxTokens)
    ensures items[i] in Fitting(items, maxTokens)
  {
    var n := |items| - 1;
    if i < n {
      InFitting(items[..n], maxTokens, i);
    } else {
      assert Fitting(items, maxTokens)[|Fitting(items[..n], maxTokens)|] == items[n];
    }
  }

  lemma {:induction false} FittingFits(items: seq<Item>, maxTokens: int, it: Item)
    requires it in Fitting(items, maxTokens)
    ensures it in items && Fits(it, maxTokens)
  {
    var n := |items| - 1;
    if it in Fitting(items[..n], maxTokens) { FittingFits(items[..n], maxTokens, it); }
  }

  lemma {:induction false} InFlatten(chunks: seq<seq<Item>>, it: Item) returns (c: nat, k: nat)
    requires it in Flatten(chunks)
    ensures c < |chunks| && k < |chunks[c]| && chunks[c][k] == it
  {
    var n := |chunks| - 1;
    if it in Flatten(chunks[..n]) {
      c, k := InFlatten(chunks[..n], it);
    } else {
      c := n;
      k :| 0 <= k < |chunks[n]| && chunks[n][k] == it;
    }
  }

  lemma {:induction false} ChunkInFlatten(chunks: seq<seq<Item>>, c: nat, k: nat)
    requires c < |chunks| && k < |chunks[c]|
    ensures chunks[c][k] in Flatten(chunks)
  {
    var n := |chunks| - 1;
    if c < n { ChunkInFlatten(chunks[..n], c, k); }
  }

  /** A text that fits was flushed and has its vector; one that does not was never touched. */
  lemma EachPlaced(e: Encoder, enc: seq<int> -> Vec, items: seq<Item>, maxTokens: int, chunks: seq<seq<Item>>,
                   results: seq<Vec>, i: nat)
    requires i < |items| == |results| && (forall n :: 0 <= n < |items| ==> items[n].index == n)
    requires Flatten(chunks) == Fitting(items, maxTokens) && Placed(e, enc, chunks, results)
    requires Untouched(chunks, results, |items|)
    requires forall cells :: e.ok(cells)
    ensures results[i] == Alone(enc, items[i], maxTokens)
  {
    hide Layout, Fits;
    if Fits(items[i], maxTokens) {
      InFitting(items, maxTokens, i);
      var c, k := InFlatten(chunks, items[i]);
      assert ChunkPlaced(e, enc, chunks[c], results) && chunks[c][k].index == i;
    } else if results[i] != [] {
      var c :| 0 <= c < |chunks| && Mentions(chunks[c], i);
      var k :| 0 <= k < |chunks[c]| && chunks[c][k].index == i;
      ChunkInFlatten(chunks, c, k);
      FittingFits(items, maxTokens, chunks[c][k]);
      assert false;
    }
  }

  lemma TotalSnoc(chunk: seq<Item>, it: Item)
    ensures Total(chunk + [it]) == Total(chunk) + if Usable(it) then |it.tokens| else 0
  {}

  lemma FlattenSnoc(chunks: seq<seq<Item>>, chunk: seq<Item>)
    ensures Flatten(chunks + [chunk]) == Flatten(chunks) + chunk
  {}
}
