/** The decoding loops of src/pgoutput_parser.cpp. On every well-formed message they give the meaning
    Decoder assigns to it, and the cursor stops at the end of the message. */
module PgOutputParser {

  import opened Wrappers
  import opened Events
  import opened Wire
  import opened Decoder

  function ColTag(c: Col): nat {
    match c
    case NullCol => COL_NULL
    case UnchangedCol => COL_UNCHANGED
    case TextCol(_) => COL_TEXT
    case BinaryCol(_) => COL_BINARY
  }

  lemma AtCol(data: Bytes, p: nat, c: Col)
    requires At(data, p, EncodeCol(c))
    ensures At(data, p, U8(ColTag(c)))
    ensures c.TextCol? ==> At(data, p + 1, U32(|c.text|)) && At(data, p + 5, c.text)
  {
    hide At, BigEndian;
    if c.TextCol? {
      AtSplit(data, p, U8(COL_TEXT), U32(|c.text|) + c.text);
      AtSplit(data, p + 1, U32(|c.text|), c.text);
    } else if c.BinaryCol? {
      AtSplit(data, p, U8(COL_BINARY), U32(|c.data|) + c.data);
    }
  }

  method DecodeCol(name: string, data: Bytes, p: nat, ghost c: Col) returns (ok: bool, column: Column, p': nat)
    requires ColOk(c) && At(data, p, EncodeCol(c))
    ensures ok == !c.BinaryCol?
    ensures ok ==> column == ColumnOf(name, c) && p' == p + |EncodeCol(c)|
  {
    hide At, BigEndian;
    AtCol(data, p, c);
    var kind, q := ReadU8(data, p, ColTag(c));
    if kind == COL_NULL {
      return true, Column(name, true, false, ""), q;
    } else if kind == COL_UNCHANGED {
      return true, Column(name, false, true, ""), q;
    } else if kind == COL_TEXT {
      var len, r := ReadU32(data, q, |c.text|);
      TakeAt(data, r, c.text);
      return true, Column(name, false, false, Chars(data[r..r + len])), r + len;
    } else {
      return false, Column(name, false, false, ""), q;
    }
  }

  lemma TakeAt(data: Bytes, p: nat, enc: Bytes)
    requires At(data, p, enc)
    ensures p + |enc| <= |data| && data[p..p + |enc|] == enc
  {}

  method DecodeTuple(names: seq<string>, data: Bytes, p: nat, ghost t: Tuple) returns (ok: bool, row: Row, p': nat)
    requires TupleOk(t) && At(data, p, EncodeTuple(t))
    ensures ok == AllText(t)
    ensures ok ==> row == RowOf(names, t) && p' == p + |EncodeTuple(t)|
  {
    hide At, BigEndian, EncodeCol, ColumnOf, EncodeCols, RowOf;
    AtSplit(data, p, U16(|t|), EncodeCols(t));
    var n, q := ReadU16(data, p, |t|);
    row, p' := [], q;
    TupleEnd(names, t);
    assert t[0..] == t && RowOf(names, t)[..0] == [];
    for i := 0 to n
      invariant i <= |t| && At(data, p', EncodeCols(t[i..])) && p' + |EncodeCols(t[i..])| == p + |EncodeTuple(t)|
      invariant row == RowOf(names, t)[..i] && forall k :: 0 <= k < i ==> !t[k].BinaryCol?
    {
      TupleStep(names, t, i);
      AtSplit(data, p', EncodeCol(t[i]), EncodeCols(t[i + 1..]));
      var good, column, r := DecodeCol(if i < |names| then names[i] else "", data, p', t[i]);
      if !good { return false, [], p'; }
      row, p' := row + [column], r;
    }
    return true, row, p';
  }

  lemma TupleStep(names: seq<string>, t: Tuple, i: nat)
    requires i < |t|
    ensures EncodeCols(t[i..]) == EncodeCol(t[i]) + EncodeCols(t[i + 1..])
    ensures |RowOf(names, t)| == |t|
    ensures RowOf(names, t)[..i + 1] == RowOf(names, t)[..i] + [ColumnOf(if i < |names| then names[i] else "", t[i])]
  {
    RowAt(names, t, i);
    ColsStep(t, i);
    hide *;
    TakeMore(RowOf(names, t), i);
  }

  lemma ColsStep(t: Tuple, i: nat)
    requires i < |t|
    ensures EncodeCols(t[i..]) == EncodeCol(t[i]) + EncodeCols(t[i + 1..])
  {
    hide EncodeCol;
    assert t[i..][0] == t[i] && t[i..][1..] == t[i + 1..];
  }

  lemma TakeMore<T>(s: seq<T>, i: nat)
    requires i < |s|
    ensures s[..i + 1] == s[..i] + [s[i]]
  {}

  lemma RowAt(names: seq<string>, t: Tuple, i: nat)
    requires i < |t|
    ensures |RowOf(names, t)| == |t| && RowOf(names, t)[i] == ColumnOf(if i < |names| then names[i] else "", t[i])
  {
    hide ColumnOf;
  }

  lemma TupleEnd(names: seq<string>, t: Tuple)
    ensures |RowOf(names, t)| == |t| && RowOf(names, t)[..|t|] == RowOf(names, t) && t[|t|..] == []
    ensures EncodeCols([]) == []
  {}

  ghost function EncodePrior(prior: Option<(OldKind, Tuple)>): Bytes {
    if prior.Some? then U8(OldTag(prior.value.0)) + EncodeTuple(prior.value.1) else []
  }

  ghost function EncodeNew(t: Tuple): Bytes { U8(TAG_N) + EncodeTuple(t) }

  /** An old tuple, if there is one, comes first; its tag tells. `tag` is the tag of what follows. */
  method ReadPrior(names: seq<string>, data: Bytes, q: nat, ghost prior: Option<(OldKind, Tuple)>, ghost t: Tuple)
    returns (ok: bool, oldRow: Option<Row>, tag: nat, r: nat)
    requires (prior.Some? ==> TupleOk(prior.value.1)) && At(data, q, EncodePrior(prior) + EncodeNew(t))
    ensures ok == (prior.None? || AllText(prior.value.1))
    ensures ok ==> oldRow == if prior.Some? then Some(RowOf(names, prior.value.1)) else None
    ensures ok ==> tag == TAG_N && r == q + |EncodePrior(prior)| + 1 && At(data, r, EncodeTuple(t))
  {
    hide At, BigEndian, EncodeTuple, RowOf, AllText, TupleOk;
    AtSplit(data, q, EncodePrior(prior), EncodeNew(t));
    AtSplit(data, q + |EncodePrior(prior)|, U8(TAG_N), EncodeTuple(t));
    if prior.Some? { AtSplit(data, q, U8(OldTag(prior.value.0)), EncodeTuple(prior.value.1)); }
    tag, r := ReadU8(data, q, if prior.Some? then OldTag(prior.value.0) else TAG_N);
    ok, oldRow := true, None;
    if tag == TAG_K || tag == TAG_O {
      var row, e;
      ok, row, e := DecodeTuple(names, data, r, prior.value.1);
      if !ok { return; }
      oldRow := Some(row);
      tag, r := ReadU8(data, e, TAG_N);
    }
  }

  class Parser {
    var relations: map<nat, RelationInfo>
    var timestamp: nat

    function Mem(): Memory
      reads this
    {
      Memory(relations, timestamp)
    }

    constructor ()
      ensures Mem() == Memory(map[], 0)
    {
      relations, timestamp := map[], 0;
    }

    method HandleRelation(data: Bytes, p: nat, ghost m: Msg) returns (end: nat)
      requires m.RelationMsg? && WellFormed(m) && At(data, p, EncodeBody(m))
      modifies `relations
      ensures relations == old(relations)[m.id := InfoOf(m)] && end == p + |EncodeBody(m)|
    {
      hide At, BigEndian, CStr, EncodeRelCol, Chars;
      ghost var rest := U8(m.identity) + (U16(|m.cols|) + EncodeRelCols(m.cols));
      AtSplit(data, p, U32(m.id), CStr(m.schema) + (CStr(m.table) + rest));
      var id, q := ReadU32(data, p, m.id);
      AtSplit(data, q, CStr(m.schema), CStr(m.table) + rest);
      var schema, r := ReadCStr(data, q, m.schema);
      AtSplit(data, r, CStr(m.table), rest);
      var table, s := ReadCStr(data, r, m.table);
      AtSplit(data, s, U8(m.identity), U16(|m.cols|) + EncodeRelCols(m.cols));
      var _, u := ReadU8(data, s, m.identity);
      AtSplit(data, u, U16(|m.cols|), EncodeRelCols(m.cols));
      var n, v := ReadU16(data, u, |m.cols|);
      var names;
      names, end := ReadRelCols(n, data, v, m.cols);
      relations := relations[id := RelationInfo(Chars(schema), Chars(table), names)];
    }

    /** Only the timestamp is kept, moved to the Unix epoch in 64-bit arithmetic. A Begin that is too
        short is skipped. */
    method HandleBegin(data: Bytes, p: nat)
      requires p <= |data|
      modifies `timestamp
      ensures timestamp == if |data| - p < 20 then old(timestamp) else (Fold(data[p + 8..p + 16]) + EPOCH_OFFSET) % MAX64
    {
      if |data| - p < 20 { return; }
      var t := ReadU64(data, p + 8);
      timestamp := (t + EPOCH_OFFSET) % MAX64;
    }

    method HandleTruncate(data: Bytes, p: nat, ghost m: Msg) returns (events: seq<Decoded>, end: nat)
      requires m.TruncateMsg? && WellFormed(m) && At(data, p, EncodeBody(m))
      ensures events == TruncateEvents(Mem(), m.ids) && end == p + |EncodeBody(m)|
    {
      hide At, BigEndian;
      AtSplit(data, p, U32(|m.ids|), U8(m.flags) + EncodeIds(m.ids));
      var n, q := ReadU32(data, p, |m.ids|);
      AtSplit(data, q, U8(m.flags), EncodeIds(m.ids));
      var _, r := ReadU8(data, q, m.flags);
      events, end := [], r;
      assert m.ids[0..] == m.ids;
      for i := 0 to n
        invariant i <= |m.ids| && At(data, end, EncodeIds(m.ids[i..])) && end + |EncodeIds(m.ids[i..])| == p + |EncodeBody(m)|
        invariant events == TruncateEvents(Mem(), m.ids[..i])
      {
        assert m.ids[i..][0] == m.ids[i] && m.ids[i..][1..] == m.ids[i + 1..] && m.ids[..i + 1][..i] == m.ids[..i];
        AtSplit(data, end, U32(m.ids[i]), EncodeIds(m.ids[i + 1..]));
        var id;
        id, end := ReadU32(data, end, m.ids[i]);
        if id in relations {
          events := events + [Decoded(relations[id].schema, Event(Truncate, relations[id].table, None, None), timestamp)];
        }
      }
      assert m.ids[..n] == m.ids;
    }

    method HandleInsert(data: Bytes, p: nat, ghost m: Msg) returns (out: Outcome, end: nat)
      requires m.InsertMsg? && WellFormed(m) && At(data, p, EncodeBody(m))
      ensures out == RowEvent(Mem(), m.id, Insert, None, Some(m.newTuple)) && (out != Error ==> end == p + |EncodeBody(m)|)
    {
      hide At, BigEndian, EncodeTuple, RowOf;
      AtSplit(data, p, U32(m.id), U8(TAG_N) + EncodeTuple(m.newTuple));
      var id, q := ReadU32(data, p, m.id);
      if id !in relations { return Error, q; }
      AtSplit(data, q, U8(TAG_N), EncodeTuple(m.newTuple));
      var _, r := ReadU8(data, q, TAG_N);
      var ok, row, e := DecodeTuple(relations[id].names, data, r, m.newTuple);
      if !ok { return Error, r; }
      return Yields([Decoded(relations[id].schema, Event(Insert, relations[id].table, Some(row), None), timestamp)]), e;
    }

    method HandleDelete(data: Bytes, p: nat, ghost m: Msg) returns (out: Outcome, end: nat)
      requires m.DeleteMsg? && WellFormed(m) && At(data, p, EncodeBody(m))
      ensures out == RowEvent(Mem(), m.id, Delete, Some(m.oldTuple), None) && (out != Error ==> end == p + |EncodeBody(m)|)
    {
      hide At, BigEndian, EncodeTuple, RowOf;
      AtSplit(data, p, U32(m.id), U8(OldTag(m.kind)) + EncodeTuple(m.oldTuple));
      var id, q := ReadU32(data, p, m.id);
      if id !in relations { return Error, q; }
      AtSplit(data, q, U8(OldTag(m.kind)), EncodeTuple(m.oldTuple));
      var _, r := ReadU8(data, q, OldTag(m.kind));
      var ok, row, e := DecodeTuple(relations[id].names, data, r, m.oldTuple);
      if !ok { return Error, r; }
      return Yields([Decoded(relations[id].schema, Event(Delete, relations[id].table, None, Some(row)), timestamp)]), e;
    }

    method HandleUpdate(data: Bytes, p: nat, ghost m: Msg) returns (out: Outcome, end: nat)
      requires m.UpdateMsg? && WellFormed(m) && At(data, p, EncodeBody(m))
      ensures out == RowEvent(Mem(), m.id, Update, if m.prior.Some? then Some(m.prior.value.1) else None, Some(m.newTuple))
      ensures out != Error ==> end == p + |EncodeBody(m)|
    {
      hide At, BigEndian, EncodeTuple, RowOf, AllText;
      AtSplit(data, p, U32(m.id), EncodePrior(m.prior) + EncodeNew(m.newTuple));
      var id, q := ReadU32(data, p, m.id);
      if id !in relations { return Error, q; }
      var read, oldRow, tag, r := ReadPrior(relations[id].names, data, q, m.prior, m.newTuple);
      if !read { return Error, q; }
      var newRow: Option<Row> := None;
      end := r;
      if tag == TAG_N {
        var ok, row, e := DecodeTuple(relations[id].names, data, r, m.newTuple);
        if !ok { return Error, r; }
        newRow, end := Some(row), e;
      }
      return Yields([Decoded(relations[id].schema, Event(Update, relations[id].table, newRow, oldRow), timestamp)]), end;
    }

    /** One message. An empty one yields nothing. */
    method Parse(data: Bytes, ghost m: Msg) returns (out: Outcome, end: nat)
      requires data == [] || (WellFormed(m) && data == Encode(m))
      modifies this
      ensures data == [] ==> Mem() == old(Mem()) && out == Nothing
      ensures data != [] ==> (Mem(), out) == Meaning(old(Mem()), m)
      ensures data != [] && (m.RelationMsg? || m.TruncateMsg? || m.InsertMsg? || m.UpdateMsg? || m.DeleteMsg?) && out != Error ==>
        end == |data|
    {
      if data == [] { return Nothing, 0; }
      hide *;
      WholeAt(data, m);
      TagTells(m);
      var tag, p := ReadU8(data, 0, TagOf(m));
      if tag == TAG_I || tag == TAG_U || tag == TAG_D {
        out, end := HandleRow(tag, data, p, m);
      } else {
        out, end := HandleOther(tag, data, p, m);
      }
    }

    /** Everything but the row messages; an unknown tag yields nothing. */
    method HandleOther(tag: nat, data: Bytes, p: nat, ghost m: Msg) returns (out: Outcome, end: nat)
      requires !IsRowMsg(m) && tag == TagOf(m) && WellFormed(m) && At(data, p, EncodeBody(m)) && p <= |data|
      modifies this
      ensures (Mem(), out) == Meaning(old(Mem()), m)
      ensures m.RelationMsg? || m.TruncateMsg? ==> end == p + |EncodeBody(m)|
    {
      TagTells(m);
      hide At, BigEndian, EncodeBody, WellFormed, TruncateEvents, RowEvent, InfoOf, Fold, TagOf;
      if tag == TAG_B {
        BeginAt(data, p, m);
        HandleBegin(data, p);
        return Nothing, p;
      } else if tag == TAG_C {
        return Yields([Decoded("", Event(Commit, "", None, None), timestamp)]), p;
      } else if tag == TAG_R {
        end := HandleRelation(data, p, m);
        return Nothing, end;
      } else if tag == TAG_T {
        var events;
        events, end := HandleTruncate(data, p, m);
        return Yields(events), end;
      } else {
        return Nothing, p;
      }
    }

    method HandleRow(tag: nat, data: Bytes, p: nat, ghost m: Msg) returns (out: Outcome, end: nat)
      requires IsRowMsg(m) && tag == TagOf(m) && WellFormed(m) && At(data, p, EncodeBody(m))
      ensures (Mem(), out) == Meaning(Mem(), m) && (out != Error ==> end == p + |EncodeBody(m)|)
    {
      hide At, EncodeBody, WellFormed, RowEvent;
      if tag == TAG_I {
        out, end := HandleInsert(data, p, m);
      } else if tag == TAG_U {
        out, end := HandleUpdate(data, p, m);
      } else {
        out, end := HandleDelete(data, p, m);
      }
    }
  }

  lemma WholeAt(data: Bytes, m: Msg)
    requires WellFormed(m) && data == Encode(m)
    ensures TagOf(m) < 256 && At(data, 0, U8(TagOf(m))) && At(data, 1, EncodeBody(m)) && |data| == 1 + |EncodeBody(m)|
    ensures m.OtherMsg? ==> m.tag !in {TAG_B, TAG_C, TAG_R, TAG_T, TAG_I, TAG_U, TAG_D}
  {}

  lemma TagTells(m: Msg)
    requires WellFormed(m)
    ensures var tag := TagOf(m);
      && (tag == TAG_B <==> m.BeginMsg?) && (tag == TAG_C <==> m.CommitMsg?) && (tag == TAG_R <==> m.RelationMsg?)
      && (tag == TAG_T <==> m.TruncateMsg?) && (tag == TAG_I || tag == TAG_U || tag == TAG_D <==> IsRowMsg(m))
  {}

  /** The timestamp of a Begin message is where HandleBegin reads it. */
  lemma BeginAt(data: Bytes, p: nat, m: Msg)
    requires m.BeginMsg? && WellFormed(m) && At(data, p, EncodeBody(m))
    ensures p + 20 <= |data| && Fold(data[p + 8..p + 16]) == m.timestamp
  {
    hide BigEndian;
    AtSplit(data, p, U64(m.finalLsn), U64(m.timestamp) + U32(m.xid));
    AtSplit(data, p + 8, U64(m.timestamp), U32(m.xid));
    Widths();
    FoldBigEndian(m.timestamp, 8);
    hide Fold;
    TakeAt(data, p, EncodeBody(m));
    TakeAt(data, p + 8, U64(m.timestamp));
  }

  method ReadRelCols(n: nat, data: Bytes, p: nat, ghost cols: seq<RelCol>) returns (names: seq<string>, end: nat)
    requires n == |cols| && At(data, p, EncodeRelCols(cols)) && forall i :: 0 <= i < |cols| ==> RelColOk(cols[i])
    ensures names == seq(|cols|, i requires 0 <= i < |cols| => Chars(cols[i].name)) && end == p + |EncodeRelCols(cols)|
  {
    hide At, BigEndian, CStr, Chars;
    names, end := [], p;
    assert cols[0..] == cols;
    for i := 0 to n
      invariant At(data, end, EncodeRelCols(cols[i..])) && end + |EncodeRelCols(cols[i..])| == p + |EncodeRelCols(cols)|
      invariant names == seq(i, k requires 0 <= k < i => Chars(cols[k].name))
    {
      assert cols[i..][0] == cols[i] && cols[i..][1..] == cols[i + 1..];
      AtSplit(data, end, EncodeRelCol(cols[i]), EncodeRelCols(cols[i + 1..]));
      var name;
      name, end := ReadRelCol(data, end, cols[i]);
      names := names + [Chars(name)];
    }
  }

  method ReadRelCol(data: Bytes, p: nat, ghost c: RelCol) returns (name: Bytes, end: nat)
    requires RelColOk(c) && At(data, p, EncodeRelCol(c))
    ensures name == c.name && end == p + |EncodeRelCol(c)|
  {
    hide At, BigEndian, CStr;
    AtSplit(data, p, U8(c.flags), CStr(c.name) + (U32(c.typeOid) + U32(c.typeMod)));
    var _, q := ReadU8(data, p, c.flags);
    AtSplit(data, q, CStr(c.name), U32(c.typeOid) + U32(c.typeMod));
    var r;
    name, r := ReadCStr(data, q, c.name);
    AtSplit(data, r, U32(c.typeOid), U32(c.typeMod));
    var _, s := ReadU32(data, r, c.typeOid);
    var _, t := ReadU32(data, s, c.typeMod);
    end := t;
  }

  // ---------- streams ----------

  /** What is remembered after a run of messages. */
  function After(mem: Memory, msgs: seq<Msg>): Memory {
    if msgs == [] then mem else Meaning(After(mem, msgs[..|msgs| - 1]), msgs[|msgs| - 1]).0
  }

  /** What each message of a stream yields. */
  function Outcomes(mem: Memory, msgs: seq<Msg>): (outs: seq<Outcome>)
    ensures |outs| == |msgs|
  {
    if msgs == [] then []
    else Outcomes(mem, msgs[..|msgs| - 1]) + [Meaning(After(mem, msgs[..|msgs| - 1]), msgs[|msgs| - 1]).1]
  }

  /** Parsing a stream of well-formed messages gives the meaning of each, in order. */
  method ParseStream(parser: Parser, payloads: seq<Bytes>, ghost msgs: seq<Msg>) returns (outs: seq<Outcome>)
    requires |payloads| == |msgs| && forall i :: 0 <= i < |msgs| ==> WellFormed(msgs[i]) && payloads[i] == Encode(msgs[i])
    modifies parser
    ensures parser.Mem() == After(old(parser.Mem()), msgs) && outs == Outcomes(old(parser.Mem()), msgs)
  {
    outs := [];
    assert msgs[..0] == [];
    hide WellFormed, Encode, Meaning;
    for i := 0 to |payloads|
      invariant parser.Mem() == After(old(parser.Mem()), msgs[..i]) && outs == Outcomes(old(parser.Mem()), msgs[..i])
    {
      assert msgs[..i + 1][..i] == msgs[..i];
      EncodeNotEmpty(msgs[i]);
      var out, _ := parser.Parse(payloads[i], msgs[i]);
      outs := outs + [out];
    }
    assert msgs[..|msgs|] == msgs;
  }

  lemma EncodeNotEmpty(m: Msg)
    ensures Encode(m) != []
  {}

  /** The newest Relation message for an id. */
  function Latest(msgs: seq<Msg>, id: nat): Option<Msg> {
    if msgs == [] then None
    else
      var m := msgs[|msgs| - 1];
      if m.RelationMsg? && m.id == id then Some(m) else Latest(msgs[..|msgs| - 1], id)
  }

  /** The decoder knows a relation by the newest message that described it. */
  lemma {:induction false} RemembersLatest(mem: Memory, msgs: seq<Msg>, id: nat)
    requires mem.relations == map[]
    ensures var l := Latest(msgs, id);
      && (l.Some? ==> l.value.RelationMsg? && l.value.id == id)
      && (id in After(mem, msgs).relations <==> l.Some?)
      && (l.Some? ==> After(mem, msgs).relations[id] == InfoOf(l.value))
  {
    hide InfoOf, RowEvent, TruncateEvents;
    if msgs != [] { RemembersLatest(mem, msgs[..|msgs| - 1], id); }
  }

  lemma {:induction false} OutcomeAt(mem: Memory, msgs: seq<Msg>, n: nat)
    requires n < |msgs|
    ensures Outcomes(mem, msgs)[n] == Meaning(After(mem, msgs[..n]), msgs[n]).1
  {
    hide Meaning;
    var k := |msgs| - 1;
    if n < k {
      OutcomeAt(mem, msgs[..k], n);
      assert msgs[..k][..n] == msgs[..n];
    }
  }

  predicate IsRowMsg(m: Msg) { m.InsertMsg? || m.UpdateMsg? || m.DeleteMsg? }

  function OpOf(m: Msg): Op
    requires IsRowMsg(m)
  {
    if m.InsertMsg? then Insert else if m.UpdateMsg? then Update else Delete
  }

  function OldTuple(m: Msg): Option<Tuple> {
    match m
    case UpdateMsg(_, Some(prior), _) => Some(prior.1)
    case DeleteMsg(_, _, t) => Some(t)
    case _ => None
  }

  function NewTuple(m: Msg): Option<Tuple> {
    match m
    case InsertMsg(_, t) => Some(t)
    case UpdateMsg(_, _, t) => Some(t)
    case _ => None
  }

  /** The row is there when the tuple is, and has each column under the name `rel` gives it. */
  ghost predicate Carries(row: Option<Row>, rel: Msg, t: Option<Tuple>)
    requires rel.RelationMsg?
  {
    && row.Some? == t.Some?
    && (t.Some? ==>
          && |row.value| == |t.value|
          && forall k :: 0 <= k < |t.value| ==>
               row.value[k] == ColumnOf(if k < |rel.cols| then Chars(rel.cols[k].name) else "", t.value[k]))
  }

  /** What the event of a row message must be when `rel` is the newest description of its relation. */
  ghost predicate Decodes(out: Outcome, rel: Option<Msg>, m: Msg)
    requires IsRowMsg(m)
  {
    if rel.None? || (OldTuple(m).Some? && !AllText(OldTuple(m).value)) || (NewTuple(m).Some? && !AllText(NewTuple(m).value))
    then out == Error
    else
      && rel.value.RelationMsg? && out.Yields? && |out.events| == 1 && out.events[0].schema == Chars(rel.value.schema)
      && var ev := out.events[0].event;
      && ev.op == OpOf(m) && ev.table == Chars(rel.value.table)
      && Carries(ev.newRow, rel.value, NewTuple(m)) && Carries(ev.oldRow, rel.value, OldTuple(m))
  }

  /** An insert, update or delete anywhere in a stream comes out with its table and both its rows, each
      column under the name the newest Relation message gives it; one whose relation was never described,
      or with a binary column, is refused. */
  lemma RowDecoded(mem: Memory, msgs: seq<Msg>, n: nat)
    requires mem.relations == map[] && n < |msgs| && IsRowMsg(msgs[n])
    ensures Decodes(Outcomes(mem, msgs)[n], Latest(msgs[..n], msgs[n].id), msgs[n])
  {
    RemembersLatest(mem, msgs[..n], msgs[n].id);
    OutcomeAt(mem, msgs, n);
    var rel := Latest(msgs[..n], msgs[n].id);
    hide Chars, ColumnOf, Latest, After, AllText, Outcomes;
    if rel.Some? {
      if NewTuple(msgs[n]).Some? { RowCarries(rel.value, NewTuple(msgs[n]).value); }
      if OldTuple(msgs[n]).Some? { RowCarries(rel.value, OldTuple(msgs[n]).value); }
      hide RowOf, InfoOf, Carries;
      InfoTable(rel.value);
    }
  }

  lemma InfoTable(rel: Msg)
    requires rel.RelationMsg?
    ensures InfoOf(rel).table == Chars(rel.table) && InfoOf(rel).schema == Chars(rel.schema)
  {}

  lemma RowCarries(rel: Msg, t: Tuple)
    requires rel.RelationMsg?
    ensures Carries(Some(RowOf(InfoOf(rel).names, t)), rel, Some(t))
  {
    hide Chars, ColumnOf;
  }

  /** A commit anywhere in a stream yields one event, which only marks it. */
  lemma CommitDecoded(mem: Memory, msgs: seq<Msg>, n: nat)
    requires n < |msgs| && msgs[n].CommitMsg?
    ensures var out := Outcomes(mem, msgs)[n];
      out.Yields? && |out.events| == 1 && out.events[0].event == Event(Commit, "", None, None)
  {
    OutcomeAt(mem, msgs, n);
    hide Outcomes, After;
  }

  /** The ids of a truncate whose relations have been described, in order. */
  function Described(msgs: seq<Msg>, ids: seq<nat>): seq<nat> {
    if ids == [] then []
    else
      var id := ids[|ids| - 1];
      Described(msgs, ids[..|ids| - 1]) + (if Latest(msgs, id).Some? then [id] else [])
  }

  lemma {:induction false} TruncatesNamed(mem: Memory, msgs: seq<Msg>, ids: seq<nat>, k: nat)
    requires mem.relations == map[]
    ensures var events, known := TruncateEvents(After(mem, msgs), ids), Described(msgs, ids);
      && |events| == |known|
      && (k < |known| ==>
            && Latest(msgs, known[k]).Some? && Latest(msgs, known[k]).value.RelationMsg?
            && events[k].schema == Chars(Latest(msgs, known[k]).value.schema)
            && events[k].event == Event(Truncate, Chars(Latest(msgs, known[k]).value.table), None, None))
  {
    if ids != [] {
      var n := |ids| - 1;
      TruncatesNamed(mem, msgs, ids[..n], k);
      RemembersLatest(mem, msgs, ids[n]);
      hide Latest, After, Chars;
    }
  }

  /** A truncate anywhere in a stream yields one event for each relation that has been described, in order, with the
      table the newest Relation message names. */
  lemma TruncateDecoded(mem: Memory, msgs: seq<Msg>, n: nat)
    requires mem.relations == map[] && n < |msgs| && msgs[n].TruncateMsg?
    ensures var out, known := Outcomes(mem, msgs)[n], Described(msgs[..n], msgs[n].ids);
      && out.Yields? && |out.events| == |known|
      && forall k :: 0 <= k < |known| ==>
           && Latest(msgs[..n], known[k]).Some? && Latest(msgs[..n], known[k]).value.RelationMsg?
           && out.events[k].schema == Chars(Latest(msgs[..n], known[k]).value.schema)
           && out.events[k].event == Event(Truncate, Chars(Latest(msgs[..n], known[k]).value.table), None, None)
  {
    OutcomeAt(mem, msgs, n);
    TruncatesNamed(mem, msgs[..n], msgs[n].ids, 0);
    forall k: nat | k < |Described(msgs[..n], msgs[n].ids)|
      ensures
        && Latest(msgs[..n], Described(msgs[..n], msgs[n].ids)[k]).Some?
        && Latest(msgs[..n], Described(msgs[..n], msgs[n].ids)[k]).value.RelationMsg?
        && TruncateEvents(After(mem, msgs[..n]), msgs[n].ids)[k].schema ==
             Chars(Latest(msgs[..n], Described(msgs[..n], msgs[n].ids)[k]).value.schema)
        && TruncateEvents(After(mem, msgs[..n]), msgs[n].ids)[k].event ==
             Event(Truncate, Chars(Latest(msgs[..n], Described(msgs[..n], msgs[n].ids)[k]).value.table), None, None)
    {
      TruncatesNamed(mem, msgs[..n], msgs[n].ids, k);
    }
    hide Outcomes, After, Latest, Described, Chars, TruncateEvents;
  }

  /** The newest Begin message. */
  function LatestBegin(msgs: seq<Msg>): (r: Option<Msg>)
    ensures r.Some? ==> r.value.BeginMsg?
  {
    if msgs == [] then None
    else if msgs[|msgs| - 1].BeginMsg? then Some(msgs[|msgs| - 1]) else LatestBegin(msgs[..|msgs| - 1])
  }

  lemma {:induction false} TimeIsBegins(mem: Memory, msgs: seq<Msg>)
    ensures var b := LatestBegin(msgs);
      After(mem, msgs).timestamp == if b.Some? then (b.value.timestamp + EPOCH_OFFSET) % MAX64 else mem.timestamp
  {
    hide RowEvent, TruncateEvents, InfoOf;
    if msgs != [] { TimeIsBegins(mem, msgs[..|msgs| - 1]); }
  }

  lemma {:induction false} TruncatesTimed(mem: Memory, ids: seq<nat>)
    ensures forall k :: 0 <= k < |TruncateEvents(mem, ids)| ==> TruncateEvents(mem, ids)[k].timestamp == mem.timestamp
  {
    if ids != [] { TruncatesTimed(mem, ids[..|ids| - 1]); }
  }

  /** Every event carries the time of the newest Begin message before it, moved to the Unix epoch. */
  lemma EventsTimed(mem: Memory, msgs: seq<Msg>, n: nat, k: nat)
    requires n < |msgs| && Outcomes(mem, msgs)[n].Yields? && k < |Outcomes(mem, msgs)[n].events|
    ensures var b := LatestBegin(msgs[..n]);
      Outcomes(mem, msgs)[n].events[k].timestamp ==
        if b.Some? then (b.value.timestamp + EPOCH_OFFSET) % MAX64 else mem.timestamp
  {
    OutcomeAt(mem, msgs, n);
    TimeIsBegins(mem, msgs[..n]);
    MeaningTimed(After(mem, msgs[..n]), msgs[n], k);
    hide *;
  }

  lemma MeaningTimed(mem: Memory, m: Msg, k: nat)
    requires var out := Meaning(mem, m).1; out.Yields? && k < |out.events|
    ensures Meaning(mem, m).1.events[k].timestamp == mem.timestamp
  {
    hide RowOf, AllText, InfoOf, TruncateEvents;
    if m.TruncateMsg? { TruncatesTimed(mem, m.ids); }
  }
}
