/** The pgoutput decoder of src/pgoutput_parser.cpp against the message formats of section 55.9 of the
    PostgreSQL 15 documentation (Logical Replication Message Formats, protocol version 1): what the
    server means by each message, and how it writes it. */
module Decoder {

  import opened Wrappers
  import opened Events
  import opened Wire

  /** A column of a tuple. Binary values are part of the format, but the decoder refuses them. */
  datatype Col = NullCol | UnchangedCol | TextCol(text: Bytes) | BinaryCol(data: Bytes)

  type Tuple = seq<Col>

  datatype RelCol = RelCol(flags: nat, name: Bytes, typeOid: nat, typeMod: nat)

  datatype Msg =
    | BeginMsg(finalLsn: nat, timestamp: nat, xid: nat)
    | CommitMsg(body: Bytes)
    | RelationMsg(id: nat, schema: Bytes, table: Bytes, identity: nat, cols: seq<RelCol>)
    | TruncateMsg(flags: nat, ids: seq<nat>)
    | InsertMsg(id: nat, newTuple: Tuple)
    | UpdateMsg(id: nat, prior: Option<(OldKind, Tuple)>, newTuple: Tuple)
    | DeleteMsg(id: nat, kind: OldKind, oldTuple: Tuple)
    | OtherMsg(tag: nat, body: Bytes)

  /** Whether an old tuple has the key columns only, or the whole row. */
  datatype OldKind = KeyOnly | WholeRow

  // ---------- how the server writes it ----------

  const TAG_B := 0x42
  const TAG_C := 0x43
  const TAG_D := 0x44
  const TAG_I := 0x49
  const TAG_K := 0x4B
  const TAG_N := 0x4E
  const TAG_O := 0x4F
  const TAG_R := 0x52
  const TAG_T := 0x54
  const TAG_U := 0x55
  const COL_NULL := 0x6E
  const COL_TEXT := 0x74
  const COL_UNCHANGED := 0x75
  const COL_BINARY := 0x62

  function EncodeCol(c: Col): Bytes {
    match c
    case NullCol => U8(COL_NULL)
    case UnchangedCol => U8(COL_UNCHANGED)
    case TextCol(text) => U8(COL_TEXT) + (U32(|text|) + text)
    case BinaryCol(data) => U8(COL_BINARY) + (U32(|data|) + data)
  }

  function EncodeCols(t: Tuple): Bytes {
    if t == [] then [] else EncodeCol(t[0]) + EncodeCols(t[1..])
  }

  function EncodeTuple(t: Tuple): Bytes { U16(|t|) + EncodeCols(t) }

  function EncodeRelCol(c: RelCol): Bytes {
    U8(c.flags) + (CStr(c.name) + (U32(c.typeOid) + U32(c.typeMod)))
  }

  function EncodeRelCols(cols: seq<RelCol>): Bytes {
    if cols == [] then [] else EncodeRelCol(cols[0]) + EncodeRelCols(cols[1..])
  }

  function EncodeIds(ids: seq<nat>): Bytes {
    if ids == [] then [] else U32(ids[0]) + EncodeIds(ids[1..])
  }

  function OldTag(k: OldKind): nat { if k.KeyOnly? then TAG_K else TAG_O }

  function EncodeBody(m: Msg): Bytes {
    match m
    case BeginMsg(finalLsn, timestamp, xid) => U64(finalLsn) + (U64(timestamp) + U32(xid))
    case CommitMsg(body) => body
    case RelationMsg(id, schema, table, identity, cols) =>
      U32(id) + (CStr(schema) + (CStr(table) + (U8(identity) + (U16(|cols|) + EncodeRelCols(cols)))))
    case TruncateMsg(flags, ids) => U32(|ids|) + (U8(flags) + EncodeIds(ids))
    case InsertMsg(id, t) => U32(id) + (U8(TAG_N) + EncodeTuple(t))
    case UpdateMsg(id, prior, t) =>
      U32(id) + ((if prior.Some? then U8(OldTag(prior.value.0)) + EncodeTuple(prior.value.1) else []) + (U8(TAG_N) + EncodeTuple(t)))
    case DeleteMsg(id, kind, t) => U32(id) + (U8(OldTag(kind)) + EncodeTuple(t))
    case OtherMsg(_, body) => body
  }

  function TagOf(m: Msg): nat {
    match m
    case BeginMsg(_, _, _) => TAG_B
    case CommitMsg(_) => TAG_C
    case RelationMsg(_, _, _, _, _) => TAG_R
    case TruncateMsg(_, _) => TAG_T
    case InsertMsg(_, _) => TAG_I
    case UpdateMsg(_, _, _) => TAG_U
    case DeleteMsg(_, _, _) => TAG_D
    case OtherMsg(tag, _) => tag
  }

  function Encode(m: Msg): Bytes { U8(TagOf(m)) + EncodeBody(m) }

  // ---------- which messages are well formed ----------

  predicate ColOk(c: Col) {
    (c.TextCol? ==> |c.text| < MAX32) && (c.BinaryCol? ==> |c.data| < MAX32)
  }

  predicate TupleOk(t: Tuple) {
    |t| < MAX16 && forall i :: 0 <= i < |t| ==> ColOk(t[i])
  }

  predicate RelColOk(c: RelCol) {
    c.flags < 256 && NoZero(c.name) && c.typeOid < MAX32 && c.typeMod < MAX32
  }

  predicate WellFormed(m: Msg) {
    match m
    case BeginMsg(finalLsn, timestamp, xid) => finalLsn < MAX64 && timestamp < MAX64 && xid < MAX32
    case CommitMsg(_) => true
    case RelationMsg(id, schema, table, identity, cols) =>
      && id < MAX32 && NoZero(schema) && NoZero(table) && identity < 256 && |cols| < MAX16
      && forall i :: 0 <= i < |cols| ==> RelColOk(cols[i])
    case TruncateMsg(flags, ids) => flags < 256 && |ids| < MAX32 && forall i :: 0 <= i < |ids| ==> ids[i] < MAX32
    case InsertMsg(id, t) => id < MAX32 && TupleOk(t)
    case UpdateMsg(id, prior, t) => id < MAX32 && (prior.Some? ==> TupleOk(prior.value.1)) && TupleOk(t)
    case DeleteMsg(id, _, t) => id < MAX32 && TupleOk(t)
    case OtherMsg(tag, _) => tag < 256 && tag !in {TAG_B, TAG_C, TAG_R, TAG_T, TAG_I, TAG_U, TAG_D}
  }

  // ---------- what the server means ----------

  function Chars(bs: Bytes): string {
    seq(|bs|, i requires 0 <= i < |bs| => bs[i] as int as char)
  }

  datatype RelationInfo = RelationInfo(schema: string, table: string, names: seq<string>)

  /** What the decoder remembers between messages. */
  datatype Memory = Memory(relations: map<nat, RelationInfo>, timestamp: nat)

  /** A decoded event with the parts only the decoder knows. */
  datatype Decoded = Decoded(schema: string, event: Event, timestamp: nat)

  datatype Outcome = Nothing | Yields(events: seq<Decoded>) | Error

  /** Microseconds between the PostgreSQL and the Unix epoch. */
  const EPOCH_OFFSET := 946684800 * 1000000

  function NameAt(names: seq<string>, i: nat): string {
    if i < |names| then names[i] else ""
  }

  function ColumnOf(name: string, c: Col): Column {
    match c
    case NullCol => Column(name, true, false, "")
    case UnchangedCol => Column(name, false, true, "")
    case TextCol(text) => Column(name, false, false, Chars(text))
    case BinaryCol(_) => Column(name, false, false, "")
  }

  function RowOf(names: seq<string>, t: Tuple): Row {
    seq(|t|, i requires 0 <= i < |t| => ColumnOf(NameAt(names, i), t[i]))
  }

  predicate AllText(t: Tuple) {
    forall i :: 0 <= i < |t| ==> !t[i].BinaryCol?
  }

  function InfoOf(m: Msg): RelationInfo
    requires m.RelationMsg?
  {
    RelationInfo(Chars(m.schema), Chars(m.table), seq(|m.cols|, i requires 0 <= i < |m.cols| => Chars(m.cols[i].name)))
  }

  function TruncateEvents(mem: Memory, ids: seq<nat>): seq<Decoded> {
    if ids == [] then []
    else
      var before, id := TruncateEvents(mem, ids[..|ids| - 1]), ids[|ids| - 1];
      if id !in mem.relations then before
      else
        var rel := mem.relations[id];
        before + [Decoded(rel.schema, Event(Truncate, rel.table, None, None), mem.timestamp)]
  }

  function RowEvent(mem: Memory, id: nat, op: Op, prior: Option<Tuple>, next: Option<Tuple>): Outcome {
    if id !in mem.relations then Error
    else if (prior.Some? && !AllText(prior.value)) || (next.Some? && !AllText(next.value)) then Error
    else
      var rel := mem.relations[id];
      Yields([Decoded(rel.schema,
                     Event(op, rel.table,
                           if next.Some? then Some(RowOf(rel.names, next.value)) else None,
                           if prior.Some? then Some(RowOf(rel.names, prior.value)) else None),
                     mem.timestamp)])
  }

  /** The meaning of a message: what is remembered after it, and what it yields. */
  function Meaning(mem: Memory, m: Msg): (Memory, Outcome) {
    match m
    case BeginMsg(_, timestamp, _) => (mem.(timestamp := (timestamp + EPOCH_OFFSET) % MAX64), Nothing)
    case CommitMsg(_) => (mem, Yields([Decoded("", Event(Commit, "", None, None), mem.timestamp)]))
    case RelationMsg(id, _, _, _, _) => (mem.(relations := mem.relations[id := InfoOf(m)]), Nothing)
    case TruncateMsg(_, ids) => (mem, Yields(TruncateEvents(mem, ids)))
    case InsertMsg(id, t) => (mem, RowEvent(mem, id, Insert, None, Some(t)))
    case UpdateMsg(id, prior, t) => (mem, RowEvent(mem, id, Update, if prior.Some? then Some(prior.value.1) else None, Some(t)))
    case DeleteMsg(id, _, t) => (mem, RowEvent(mem, id, Delete, Some(t), None))
    case OtherMsg(_, _) => (mem, Nothing)
  }
}
