/** The embedding sink of src/pgembedding_sink.cpp: a batch of events is applied in two passes around
    one call of the embedding provider. */
module Sink {

  import opened Wrappers
  import opened Events

  type Vec = seq<real>

  /** The conflict target of the upsert: the discriminator label (the tag), if there is one, and the id. */
  datatype Key = Key(tag: Option<string>, id: string)

  datatype Stored = Stored(text: string, meta: seq<string>, vec: Vec)

  type Table = map<Key, Stored>

  type Provider = seq<string> -> seq<Vec>

  /** Truncating a mapping without a tag empties the table. */
  predicate Cleared(tag: Option<string>, key: Key) {
    tag.None? || key.tag == tag
  }

  /** One action on the table; an upsert without a vector is dropped. */
  function Apply(t: Table, a: Action, vec: Vec): Table {
    match a
    case Upsert(tag, id, text, meta) => if vec == [] then t else t[Key(tag, id) := Stored(text, meta, vec)]
    case Remove(tag, id) => t - {Key(tag, id)}
    case Clear(tag) => map key | key in t && !Cleared(tag, key) :: t[key]
  }

  function Texts(actions: seq<Action>): seq<string> {
    if actions == [] then []
    else
      var a := actions[|actions| - 1];
      Texts(actions[..|actions| - 1]) + (if a.Upsert? then [a.text] else [])
  }

  /** The plain form: one action after the other, each text embedded on its own. */
  function Run(embed: string -> Vec, t: Table, actions: seq<Action>): Table {
    if actions == [] then t
    else
      var a := actions[|actions| - 1];
      Apply(Run(embed, t, actions[..|actions| - 1]), a, if a.Upsert? then embed(a.text) else [])
  }

  /** The provider embeds each text on its own, whatever it is batched with. */
  ghost predicate Pointwise(provider: Provider, embed: string -> Vec) {
    forall texts :: |provider(texts)| == |texts| && forall i :: 0 <= i < |texts| ==> provider(texts)[i] == embed(texts[i])
  }

  lemma {:induction false} TextsPrefix(actions: seq<Action>, n: nat)
    requires n <= |actions|
    ensures Texts(actions[..n]) <= Texts(actions)
  {
    if n == |actions| {
      assert actions[..n] == actions;
    } else {
      assert actions[..|actions| - 1][..n] == actions[..n];
      TextsPrefix(actions[..|actions| - 1], n);
    }
  }

  /** One more action of a batch: its text, if it is an upsert, is the next to embed. */
  lemma BatchStep(embed: string -> Vec, t: Table, batch: seq<Action>, i: nat)
    requires i < |batch|
    ensures var n := |Texts(batch[..i])|;
      if batch[i].Upsert? then n < |Texts(batch)| && Texts(batch)[n] == batch[i].text && |Texts(batch[..i + 1])| == n + 1
      else |Texts(batch[..i + 1])| == n
    ensures Run(embed, t, batch[..i + 1]) ==
      Apply(Run(embed, t, batch[..i]), batch[i], if batch[i].Upsert? then embed(batch[i].text) else [])
  {
    hide Apply;
    assert batch[..i + 1][..i] == batch[..i];
    TextsPrefix(batch, i + 1);
  }

  class PgEmbeddingSink {
    const mappings: seq<Mapping>
    var table: Table

    constructor (mappings: seq<Mapping>)
      ensures this.mappings == mappings && table == map[]
    {
      this.mappings := mappings;
      table := map[];
    }

    /** First pass: validate every event and record what has to be done, in event order. */
    method Collect(events: seq<Event>) returns (batch: seq<Action>)
      ensures batch == Actions(mappings, events)
    {
      batch := [];
      for i := 0 to |events|
        invariant batch == Actions(mappings, events[..i])
      {
        assert events[..i + 1][..i] == events[..i];
        var a := Prepare(mappings, events[i]);
        if a.Some? { batch := batch + [a.value]; }
      }
      assert events[..|events|] == events;
    }

    method TextsToEmbed(batch: seq<Action>) returns (texts: seq<string>)
      ensures texts == Texts(batch)
    {
      texts := [];
      for i := 0 to |batch|
        invariant texts == Texts(batch[..i])
      {
        assert batch[..i + 1][..i] == batch[..i];
        if batch[i].Upsert? { texts := texts + [batch[i].text]; }
      }
      assert batch[..|batch|] == batch;
    }

    /** The whole batch: nothing is written when the provider returns the wrong number of vectors. When
        every text got the vector it gets on its own, the result is that of one event at a time. */
    method CallBatch(provider: Provider, ghost embed: string -> Vec, events: seq<Event>)
      modifies `table
      ensures var texts := Texts(Actions(mappings, events));
        texts != [] && |provider(texts)| != |texts| ==> table == old(table)
      ensures Pointwise(provider, embed) ==> table == Run(embed, old(table), Actions(mappings, events))
    {
      var batch := Collect(events);
      if batch == [] { return; }
      var texts := TextsToEmbed(batch);
      var vectors := [];
      if texts != [] {
        vectors := provider(texts);
        if |vectors| != |texts| { return; }
      }
      assert batch[..0] == [] && Texts([]) == [] && Run(embed, table, []) == table;
      hide Run, Texts, Actions, Apply;
      var vecIdx := 0;
      for i := 0 to |batch|
        invariant vecIdx == |Texts(batch[..i])| && |vectors| == |texts|
        invariant Pointwise(provider, embed) ==> table == Run(embed, old(table), batch[..i])
      {
        BatchStep(embed, old(table), batch, i);
        var a := batch[i];
        var vec := [];
        if a.Upsert? {
          vec := vectors[vecIdx];
          vecIdx := vecIdx + 1;
        }
        table := Apply(table, a, vec);
      }
      assert batch[..|batch|] == batch;
    }
  }

  // ---------- what a key holds after a run ----------

  function Lookup(t: Table, key: Key): Option<Stored> {
    if key in t then Some(t[key]) else None
  }

  /** What an action does to one key: `None` when it leaves it alone. */
  function Touch(embed: string -> Vec, a: Action, key: Key): Option<Option<Stored>> {
    match a
    case Upsert(tag, id, text, meta) =>
      if key == Key(tag, id) && embed(text) != [] then Some(Some(Stored(text, meta, embed(text)))) else None
    case Remove(tag, id) => if key == Key(tag, id) then Some(None) else None
    case Clear(tag) => if Cleared(tag, key) then Some(None) else None
  }

  /** The last action that touches the key decides. */
  function LastTouch(embed: string -> Vec, actions: seq<Action>, key: Key): Option<Option<Stored>> {
    if actions == [] then None
    else
      var last := Touch(embed, actions[|actions| - 1], key);
      if last.Some? then last else LastTouch(embed, actions[..|actions| - 1], key)
  }

  lemma {:induction false} RunLookup(embed: string -> Vec, t: Table, actions: seq<Action>, key: Key)
    ensures Lookup(Run(embed, t, actions), key) ==
      (if LastTouch(embed, actions, key).Some? then LastTouch(embed, actions, key).value else Lookup(t, key))
  {
    if actions != [] { RunLookup(embed, t, actions[..|actions| - 1], key); }
  }

  lemma {:induction false} RunConcat(embed: string -> Vec, t: Table, a: seq<Action>, b: seq<Action>)
    ensures Run(embed, t, a + b) == Run(embed, Run(embed, t, a), b)
  {
    if b == [] {
      assert a + b == a;
    } else {
      var n := |b| - 1;
      assert (a + b)[..|a + b| - 1] == a + b[..n] && (a + b)[|a + b| - 1] == b[n];
      RunConcat(embed, t, a, b[..n]);
    }
  }

  lemma {:induction false} LastTouchConcat(embed: string -> Vec, a: seq<Action>, b: seq<Action>, key: Key)
    ensures LastTouch(embed, a + b, key) ==
      if LastTouch(embed, b, key).Some? then LastTouch(embed, b, key) else LastTouch(embed, a, key)
  {
    if b == [] {
      assert a + b == a;
    } else {
      var n := |b| - 1;
      assert (a + b)[..|a + b| - 1] == a + b[..n] && (a + b)[|a + b| - 1] == b[n];
      LastTouchConcat(embed, a, b[..n], key);
    }
  }

  lemma SameLookups(t: Table, u: Table)
    requires forall key :: Lookup(t, key) == Lookup(u, key)
    ensures t == u
  {
    forall key ensures key in t <==> key in u { assert Lookup(t, key) == Lookup(u, key); }
    forall key | key in t ensures t[key] == u[key] { assert Lookup(t, key) == Lookup(u, key); }
  }

  /** The events handled in any number of batches, cut anywhere. */
  function RunBatches(embed: string -> Vec, mappings: seq<Mapping>, t: Table, batches: seq<seq<Event>>): Table {
    if batches == [] then t
    else Run(embed, RunBatches(embed, mappings, t, batches[..|batches| - 1]), Actions(mappings, batches[|batches| - 1]))
  }

  /** How the stream is cut into batches does not matter. */
  lemma {:induction false} CutsDoNotMatter(embed: string -> Vec, mappings: seq<Mapping>, t: Table,
                                           batches: seq<seq<Event>>)
    ensures RunBatches(embed, mappings, t, batches) == Run(embed, t, Actions(mappings, Flatten(batches)))
  {
    if batches != [] {
      var n := |batches| - 1;
      CutsDoNotMatter(embed, mappings, t, batches[..n]);
      ActionsConcat(mappings, Flatten(batches[..n]), batches[n]);
      RunConcat(embed, t, Actions(mappings, Flatten(batches[..n])), Actions(mappings, batches[n]));
    }
  }

  /** If going on from `e` ends where a plain run does, so does going on from any earlier `k`. */
  lemma ResumeEarlier(embed: string -> Vec, t: Table, actions: seq<Action>, s: Table, k: nat, e: nat)
    requires k <= e <= |actions| && Run(embed, s, actions[e..]) == Run(embed, t, actions)
    ensures Run(embed, s, actions[k..]) == Run(embed, t, actions)
  {
    hide Run, LastTouch, Touch;
    var end, again := Run(embed, t, actions), Run(embed, s, actions[k..]);
    assert actions == actions[..k] + actions[k..] && actions[k..] == actions[k..e] + actions[e..];
    forall key ensures Lookup(end, key) == Lookup(again, key) {
      RunLookup(embed, t, actions, key);
      RunLookup(embed, s, actions[e..], key);
      RunLookup(embed, s, actions[k..], key);
      LastTouchConcat(embed, actions[..k], actions[k..], key);
      LastTouchConcat(embed, actions[k..e], actions[e..], key);
    }
    SameLookups(end, again);
  }

  /** Replaying from any earlier point `k`, after any part `j` of the run had already been applied, ends
      where a single run would have. */
  lemma ReplayIsHarmless(embed: string -> Vec, t: Table, actions: seq<Action>, k: nat, j: nat)
    requires k <= j <= |actions|
    ensures Run(embed, Run(embed, t, actions[..j]), actions[k..]) == Run(embed, t, actions)
  {
    assert actions == actions[..j] + actions[j..];
    RunConcat(embed, t, actions[..j], actions[j..]);
    ResumeEarlier(embed, t, actions, Run(embed, t, actions[..j]), k, j);
  }

  /** Attempts to deliver the actions, each from one position up to another. */
  type Attempts = seq<(nat, nat)>

  function EndOf(attempts: Attempts): nat {
    if attempts == [] then 0 else attempts[|attempts| - 1].1
  }

  /** Every attempt starts no later than the one before it stopped, and may stop anywhere. */
  predicate Resuming(attempts: Attempts, n: nat) {
    forall i :: 0 <= i < |attempts| ==> attempts[i].0 <= attempts[i].1 <= n && attempts[i].0 <= EndOf(attempts[..i])
  }

  function Redeliver(embed: string -> Vec, t: Table, actions: seq<Action>, attempts: Attempts): Table
    requires Resuming(attempts, |actions|)
  {
    if attempts == [] then t
    else
      var n := |attempts| - 1;
      assert Resuming(attempts[..n], |actions|) by { forall i | 0 <= i < n ensures attempts[..n][..i] == attempts[..i] {} }
      Run(embed, Redeliver(embed, t, actions, attempts[..n]), actions[attempts[n].0..attempts[n].1])
  }

  /** At-least-once delivery is enough: after any number of redeliveries, each from a point at or before
      the one the last attempt stopped at and none of them complete, going on from where the last one
      stopped ends where a single run would have. */
  lemma {:induction false} RedeliveriesAreHarmless(embed: string -> Vec, t: Table, actions: seq<Action>, attempts: Attempts)
    requires Resuming(attempts, |actions|)
    ensures EndOf(attempts) <= |actions|
    ensures Run(embed, Redeliver(embed, t, actions, attempts), actions[EndOf(attempts)..]) == Run(embed, t, actions)
  {
    if attempts == [] {
      assert actions[0..] == actions;
    } else {
      var n := |attempts| - 1;
      assert Resuming(attempts[..n], |actions|) by { forall i | 0 <= i < n ensures attempts[..n][..i] == attempts[..i] {} }
      RedeliveriesAreHarmless(embed, t, actions, attempts[..n]);
      hide Run;
      var before := Redeliver(embed, t, actions, attempts[..n]);
      var (k, e) := attempts[n];
      ResumeEarlier(embed, t, actions, before, k, EndOf(attempts[..n]));
      assert actions[k..] == actions[k..e] + actions[e..];
      RunConcat(embed, before, actions[k..e], actions[e..]);
    }
  }
}
