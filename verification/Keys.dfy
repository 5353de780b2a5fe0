/** The vector stores of src/qdrant_sink.cpp and src/milvus_sink.cpp address a point by one string made
    of label and id, where PostgreSQL has a two-column key. When do they hold the same rows? */
module Keys {

  import opened Wrappers
  import opened Events
  import opened Sink

  type Tag = Option<string>

  /** A point carries its label and id in its payload. */
  datatype Point = Point(key: Key, stored: Stored)

  type Store = map<string, Point>

  /** The name a point id is computed from. */
  function Compose(key: Key): string {
    if key.tag.Some? then key.tag.value + ":" + key.id else key.id
  }

  /** Point ids are name-based UUIDs; two different names are taken to get different ones. */
  ghost predicate Injective(uuid: string -> string) {
    forall a, b :: uuid(a) == uuid(b) ==> a == b
  }

  function ApplyPoint(uuid: string -> string, store: Store, a: Action, vec: Vec): Store {
    match a
    case Upsert(tag, id, text, meta) =>
      if vec == [] then store else store[uuid(Compose(Key(tag, id))) := Point(Key(tag, id), Stored(text, meta, vec))]
    case Remove(tag, id) => store - {uuid(Compose(Key(tag, id)))}
    case Clear(tag) => map p | p in store && !Cleared(tag, store[p].key) :: store[p]
  }

  function RunPoints(uuid: string -> string, embed: string -> Vec, store: Store, actions: seq<Action>): Store {
    if actions == [] then store
    else
      var a := actions[|actions| - 1];
      ApplyPoint(uuid, RunPoints(uuid, embed, store, actions[..|actions| - 1]), a, if a.Upsert? then embed(a.text) else [])
  }

  /** The store holds the rows of the table, each at its own point. */
  ghost predicate Agree(uuid: string -> string, table: Table, store: Store) {
    && (forall key :: key in table ==> uuid(Compose(key)) in store && store[uuid(Compose(key))] == Point(key, table[key]))
    && (forall p :: p in store ==> p == uuid(Compose(store[p].key)) && store[p].key in table)
  }

  // ---------- when the composed names are unambiguous ----------

  /** Either no mapping has a label, or all have, and none extends another one followed by a colon. */
  predicate Unambiguous(tags: set<Tag>) {
    && (None in tags ==> tags == {None})
    && (forall a, b :: a in tags && b in tags && a != b ==> !Extends(a, b))
  }

  predicate Extends(a: Tag, b: Tag) {
    a.Some? && b.Some? && a.value + ":" <= b.value
  }

  ghost predicate NamesDiffer(tags: set<Tag>) {
    forall k: Key, l: Key :: k.tag in tags && l.tag in tags && k.id != "" && l.id != "" && Compose(k) == Compose(l) ==> k == l
  }

  lemma SameNameExtends(a: string, i: string, b: string, j: string)
    requires a + ":" + i == b + ":" + j && |a| < |b|
    ensures a + ":" <= b
  {
    var s := a + ":" + i;
    assert forall n :: 0 <= n < |b| ==> b[n] == s[n];
    assert forall n :: 0 <= n < |a| ==> a[n] == s[n];
    assert s[|a|] == ':';
  }

  lemma UnambiguousNames(tags: set<Tag>, k: Key, l: Key)
    requires Unambiguous(tags) && k.tag in tags && l.tag in tags && Compose(k) == Compose(l)
    ensures k == l
  {
    if k.tag.Some? && l.tag.Some? {
      var a, b := k.tag.value, l.tag.value;
      if |a| < |b| {
        SameNameExtends(a, k.id, b, l.id);
        assert Extends(k.tag, l.tag);
      } else if |b| < |a| {
        SameNameExtends(b, l.id, a, k.id);
        assert Extends(l.tag, k.tag);
      } else {
        var s := Compose(k);
        assert a == s[..|a|] && b == s[..|b|] && k.id == s[|a| + 1..] && l.id == s[|b| + 1..];
      }
    }
  }

  /** Two keys of an ambiguous set of labels that get the same name. */
  lemma AmbiguousNames(tags: set<Tag>) returns (k: Key, l: Key)
    requires !Unambiguous(tags)
    ensures k.tag in tags && l.tag in tags && k.id != "" && l.id != "" && k != l && Compose(k) == Compose(l)
  {
    if None in tags && tags != {None} {
      var t :| t in tags && t != None;
      k, l := Key(None, t.value + ":" + "x"), Key(t, "x");
    } else {
      var a, b :| a in tags && b in tags && a != b && Extends(a, b);
      k, l := Key(a, b.value[|a.value| + 1..] + ":" + "x"), Key(b, "x");
      assert b.value == a.value + ":" + b.value[|a.value| + 1..];
    }
  }

  /** Names identify rows exactly when the labels are unambiguous. */
  lemma NamesDifferIff(tags: set<Tag>)
    ensures NamesDiffer(tags) <==> Unambiguous(tags)
  {
    if Unambiguous(tags) {
      forall k: Key, l: Key | k.tag in tags && l.tag in tags && k.id != "" && l.id != "" && Compose(k) == Compose(l)
        ensures k == l
      {
        UnambiguousNames(tags, k, l);
      }
    } else {
      var k, l := AmbiguousNames(tags);
    }
  }

  // ---------- the stores agree ----------

  /** Actions as the first pass makes them, for mappings with these labels. */
  predicate From(tags: set<Tag>, actions: seq<Action>) {
    forall i :: 0 <= i < |actions| ==> actions[i].tag in tags && (actions[i].Clear? || actions[i].id != "")
  }

  predicate KeysFrom(tags: set<Tag>, table: Table) {
    forall key :: key in table ==> key.tag in tags
  }

  /** No other row of the table shares the point of `k`. */
  ghost predicate Alone(uuid: string -> string, table: Table, k: Key) {
    forall key :: key in table && uuid(Compose(key)) == uuid(Compose(k)) ==> key == k
  }

  lemma UnambiguousIsAlone(uuid: string -> string, tags: set<Tag>, table: Table, k: Key)
    requires Injective(uuid) && Unambiguous(tags) && k.tag in tags && KeysFrom(tags, table)
    ensures Alone(uuid, table, k)
  {
    hide Compose, Unambiguous;
    forall key | key in table && uuid(Compose(key)) == uuid(Compose(k)) ensures key == k {
      UnambiguousNames(tags, key, k);
    }
  }

  lemma PutAgrees(uuid: string -> string, table: Table, store: Store, k: Key, s: Stored)
    requires Agree(uuid, table, store) && Alone(uuid, table, k)
    ensures Agree(uuid, table[k := s], store[uuid(Compose(k)) := Point(k, s)])
  {}

  lemma DropAgrees(uuid: string -> string, table: Table, store: Store, k: Key)
    requires Agree(uuid, table, store) && Alone(uuid, table, k)
    ensures Agree(uuid, table - {k}, store - {uuid(Compose(k))})
  {}

  lemma ClearAgrees(uuid: string -> string, table: Table, store: Store, tag: Tag)
    requires Agree(uuid, table, store)
    ensures Agree(uuid, Apply(table, Clear(tag), []), ApplyPoint(uuid, store, Clear(tag), []))
  {}

  lemma ApplyAgrees(uuid: string -> string, tags: set<Tag>, table: Table, store: Store, a: Action, vec: Vec)
    requires Injective(uuid) && Unambiguous(tags) && a.tag in tags && KeysFrom(tags, table) && Agree(uuid, table, store)
    ensures KeysFrom(tags, Apply(table, a, vec)) && Agree(uuid, Apply(table, a, vec), ApplyPoint(uuid, store, a, vec))
  {
    hide Agree, Alone, Unambiguous, Compose, Injective;
    match a
    case Upsert(tag, id, text, meta) =>
      UnambiguousIsAlone(uuid, tags, table, Key(tag, id));
      PutAgrees(uuid, table, store, Key(tag, id), Stored(text, meta, vec));
    case Remove(tag, id) =>
      UnambiguousIsAlone(uuid, tags, table, Key(tag, id));
      DropAgrees(uuid, table, store, Key(tag, id));
    case Clear(tag) =>
      ClearAgrees(uuid, table, store, tag);
  }

  lemma {:induction false} RunAgrees(uuid: string -> string, tags: set<Tag>, embed: string -> Vec, actions: seq<Action>)
    requires Injective(uuid) && Unambiguous(tags) && From(tags, actions)
    ensures KeysFrom(tags, Run(embed, map[], actions))
    ensures Agree(uuid, Run(embed, map[], actions), RunPoints(uuid, embed, map[], actions))
  {
    hide Compose, Unambiguous, Apply, ApplyPoint;
    if actions != [] {
      var n := |actions| - 1;
      RunAgrees(uuid, tags, embed, actions[..n]);
      hide Agree, KeysFrom, Injective;
      var a := actions[n];
      ApplyAgrees(uuid, tags, Run(embed, map[], actions[..n]), RunPoints(uuid, embed, map[], actions[..n]), a,
                  if a.Upsert? then embed(a.text) else []);
    }
  }

  ghost predicate AlwaysAgree(uuid: string -> string, tags: set<Tag>) {
    forall embed: string -> Vec, actions :: From(tags, actions) ==>
      Agree(uuid, Run(embed, map[], actions), RunPoints(uuid, embed, map[], actions))
  }

  /** Two upserts under colliding names: PostgreSQL keeps both rows, the store one point. */
  lemma CollisionDiverges(uuid: string -> string, embed: string -> Vec, k: Key, l: Key)
    requires k != l && Compose(k) == Compose(l) && embed("t") != []
    ensures var actions := [Upsert(k.tag, k.id, "t", []), Upsert(l.tag, l.id, "t", [])];
      !Agree(uuid, Run(embed, map[], actions), RunPoints(uuid, embed, map[], actions))
  {}

  /** The vector stores hold what PostgreSQL holds, after every run of actions, exactly when the
      labels are unambiguous. */
  lemma StoresAgreeIff(uuid: string -> string, tags: set<Tag>)
    requires Injective(uuid)
    ensures AlwaysAgree(uuid, tags) <==> Unambiguous(tags)
  {
    hide Agree, Run, RunPoints, Compose, Unambiguous, Injective;
    if Unambiguous(tags) {
      forall embed: string -> Vec, actions | From(tags, actions)
        ensures Agree(uuid, Run(embed, map[], actions), RunPoints(uuid, embed, map[], actions))
      {
        RunAgrees(uuid, tags, embed, actions);
      }
    } else {
      var k, l := AmbiguousNames(tags);
      var embed: string -> Vec := text => [1.0];
      CollisionDiverges(uuid, embed, k, l);
      assert From(tags, [Upsert(k.tag, k.id, "t", []), Upsert(l.tag, l.id, "t", [])]);
    }
  }

  /** For instance, label "a" with id "b:c" and label "a:b" with id "c" are one point. */
  lemma ColonCollision()
    ensures Compose(Key(Some("a"), "b:c")) == Compose(Key(Some("a:b"), "c"))
    ensures !Unambiguous({Some("a"), Some("a:b")})
  {}
}
