/** The read loop of src/pgreplication_source.cpp: every frame the connection has buffered is opened,
    its message decoded, each event stamped with the frame's LSN, and absorbed by the backfill store
    or posted. */
module ReplicationSource {

  import opened Wrappers
  import opened Events
  import opened Wire
  import opened Decoder
  import opened PgOutputParser
  import Backfill
  import Delivery
  import Confirmation

  /** A message on the connection: a piece of the log with or without a payload, a keepalive, or bytes
      that are neither or too short to be. */
  datatype Frame =
    | Data(start: nat, end: nat, sent: nat, msg: Option<Msg>)
    | Alive(keepalive: Keepalive)
    | Junk(bytes: Bytes)

  predicate FrameOk(f: Frame) {
    match f
    case Data(start, end, sent, msg) => start < MAX64 && end < MAX64 && sent < MAX64 && (msg.Some? ==> WellFormed(msg.value))
    case Alive(k) => k.walEnd < MAX64 && k.sendTime < MAX64
    case Junk(bytes) => bytes != [] && (bytes[0] == W ==> |bytes| < 25) && (bytes[0] == K ==> |bytes| < 18)
  }

  function Payload(msg: Option<Msg>): Bytes { if msg.Some? then Encode(msg.value) else [] }

  function EncodeFrame(f: Frame): Bytes {
    match f
    case Data(start, end, sent, msg) => EncodeXLogData(XLogData(start, end, sent, Payload(msg)))
    case Alive(k) => EncodeKeepalive(k)
    case Junk(bytes) => bytes
  }

  // ---------- what hearing a frame does ----------

  /** An event as it came off the connection. */
  datatype Stamped = Stamped(event: Event, lsn: nat, absorbed: bool)

  /** What the decoder remembers, the staged rows, the events seen so far, the LSN last confirmed by the dispatcher
      and the LSNs reported in replies. */
  datatype Heard = Heard(mem: Memory, rows: Backfill.Rows, seen: seq<Stamped>, confirmed: nat, replies: seq<nat>)

  /** Without a backfill nothing is absorbed. */
  function Keep(backfill: Option<seq<Mapping>>, rows: Backfill.Rows, ev: Event): (Backfill.Rows, bool) {
    if backfill.None? then (rows, false) else Backfill.Absorb(backfill.value, rows, ev)
  }

  function Take(backfill: Option<seq<Mapping>>, h: Heard, ev: Event, lsn: nat): Heard {
    var (rows, absorbed) := Keep(backfill, h.rows, ev);
    h.(rows := rows, seen := h.seen + [Stamped(ev, lsn, absorbed)])
  }

  function TakeAll(backfill: Option<seq<Mapping>>, h: Heard, events: seq<Decoded>, lsn: nat): Heard {
    if events == [] then h
    else Take(backfill, TakeAll(backfill, h, events[..|events| - 1], lsn), events[|events| - 1].event, lsn)
  }

  /** The events a frame brings; a message the decoder refuses brings none. */
  function EventsIn(mem: Memory, f: Frame): seq<Decoded> {
    if f.Data? && f.msg.Some? && Meaning(mem, f.msg.value).1.Yields? then Meaning(mem, f.msg.value).1.events else []
  }

  function Remember(mem: Memory, f: Frame): Memory {
    if f.Data? && f.msg.Some? then Meaning(mem, f.msg.value).0 else mem
  }

  function LsnOf(f: Frame): nat { if f.Data? then f.start else 0 }

  predicate AsksReply(f: Frame) { f.Alive? && f.keepalive.replyRequested }

  function Hear(backfill: Option<seq<Mapping>>, h: Heard, f: Frame): Heard {
    TakeAll(backfill, h, EventsIn(h.mem, f), LsnOf(f)).(
      mem := Remember(h.mem, f), replies := h.replies + if AsksReply(f) then [h.confirmed] else [])
  }

  function HearAll(backfill: Option<seq<Mapping>>, h: Heard, fs: seq<Frame>): Heard {
    if fs == [] then h else Hear(backfill, HearAll(backfill, h, fs[..|fs| - 1]), fs[|fs| - 1])
  }

  function PostedOf(seen: seq<Stamped>): seq<(Event, nat)> {
    if seen == [] then []
    else
      var last := seen[|seen| - 1];
      PostedOf(seen[..|seen| - 1]) + (if last.absorbed then [] else [(last.event, last.lsn)])
  }

  lemma PostedSnoc(seen: seq<Stamped>, x: Stamped)
    ensures PostedOf(seen + [x]) == if x.absorbed then PostedOf(seen) else PostedOf(seen) + [(x.event, x.lsn)]
  {
    assert (seen + [x])[..|seen|] == seen;
  }

  class PgReplicationSource {
    const backfill: Option<seq<Mapping>>
    const parser: Parser
    const store: Backfill.BackfillStore
    var posted: seq<(Event, nat)>
    var confirmed: nat
    var replies: seq<nat>
    ghost var seen: seq<Stamped>

    ghost predicate Valid()
      reads this
    {
      posted == PostedOf(seen)
    }

    ghost function State(): Heard
      reads this, parser, store
    {
      Heard(parser.Mem(), store.rows, seen, confirmed, replies)
    }

    constructor (backfill: Option<seq<Mapping>>, parser: Parser, store: Backfill.BackfillStore, startLsn: nat)
      ensures Valid() && this.backfill == backfill && this.parser == parser && this.store == store
      ensures State() == Heard(parser.Mem(), store.rows, [], startLsn, [])
    {
      this.backfill, this.parser, this.store := backfill, parser, store;
      posted, confirmed, replies, seen := [], startLsn, [], [];
    }

    /** Stamps one event and offers it to the backfill store. */
    method HandleEvent(ev: Event, lsn: nat)
      requires Valid()
      modifies `posted, `seen, store`rows
      ensures Valid() && State() == Take(backfill, old(State()), ev, lsn)
    {
      hide PostedOf, Backfill.Absorb;
      var absorbed := false;
      if backfill.Some? { absorbed := store.AbsorbEvent(backfill.value, ev); }
      if !absorbed { posted := posted + [(ev, lsn)]; }
      PostedSnoc(seen, Stamped(ev, lsn, absorbed));
      seen := seen + [Stamped(ev, lsn, absorbed)];
    }

    method HandleEvents(events: seq<Decoded>, lsn: nat)
      requires Valid()
      modifies `posted, `seen, store`rows
      ensures Valid() && State() == TakeAll(backfill, old(State()), events, lsn)
    {
      hide Take;
      for i := 0 to |events|
        invariant Valid() && State() == TakeAll(backfill, old(State()), events[..i], lsn)
      {
        assert events[..i + 1][..i] == events[..i];
        HandleEvent(events[i].event, lsn);
      }
      assert events[..|events|] == events;
    }

    /** Called by the dispatcher. */
    method SetConfirmedLsn(lsn: nat)
      requires Valid()
      modifies `confirmed
      ensures Valid() && State() == old(State()).(confirmed := lsn)
    {
      confirmed := lsn;
    }

    method PingUpdate()
      requires Valid()
      modifies `replies
      ensures Valid() && State() == old(State()).(replies := old(replies) + [confirmed])
    {
      replies := replies + [confirmed];
    }

    method HandleFrame(buf: Bytes, ghost f: Frame)
      requires Valid() && FrameOk(f) && buf == EncodeFrame(f)
      modifies this, parser, store`rows
      ensures Valid() && State() == Hear(backfill, old(State()), f)
    {
      OpenFrame(f);
      hide EncodeFrame, ParseXLogData, ParseKeepalive, FrameOk, TakeAll, WellFormed, Encode, Meaning;
      if buf[0] == K {
        var alive := ParseKeepalive(buf);
        if alive.Some? && alive.value.replyRequested { PingUpdate(); }
      } else if buf[0] == W {
        var header := ParseXLogData(buf);
        if header.Some? {
          var out, _ := parser.Parse(header.value.payload, if f.msg.Some? then f.msg.value else CommitMsg([]));
          if out.Yields? { HandleEvents(out.events, header.value.walStart); }
        }
      }
    }

    /** Everything the connection has buffered, in order. */
    method DrainAvailableMessages(bufs: seq<Bytes>, ghost fs: seq<Frame>)
      requires Valid() && |bufs| == |fs| && forall i :: 0 <= i < |fs| ==> FrameOk(fs[i]) && bufs[i] == EncodeFrame(fs[i])
      modifies this, parser, store`rows
      ensures Valid() && State() == HearAll(backfill, old(State()), fs)
    {
      hide FrameOk, EncodeFrame, Hear;
      for i := 0 to |bufs|
        invariant Valid() && State() == HearAll(backfill, old(State()), fs[..i])
      {
        assert fs[..i + 1][..i] == fs[..i];
        HandleFrame(bufs[i], fs[i]);
      }
      assert fs[..|fs|] == fs;
    }
  }

  /** What the two header parsers make of each kind of frame. */
  lemma OpenFrame(f: Frame)
    requires FrameOk(f)
    ensures var buf := EncodeFrame(f);
      && buf != []
      && (f.Data? ==> buf[0] == W && ParseXLogData(buf) == Some(XLogData(f.start, f.end, f.sent, Payload(f.msg))))
      && (f.Alive? ==> buf[0] == K && ParseKeepalive(buf) == Some(f.keepalive))
      && (f.Junk? ==> (buf[0] == W ==> ParseXLogData(buf) == None) && (buf[0] == K ==> ParseKeepalive(buf) == None))
      && (f.Data? && f.msg.Some? ==> WellFormed(f.msg.value) && Payload(f.msg) == Encode(f.msg.value) != [])
      && (f.Data? && f.msg.None? ==> Payload(f.msg) == [])
  {
    hide BigEndian, Fold, WellFormed;
    if f.Data? { XLogDataRoundTrip(XLogData(f.start, f.end, f.sent, Payload(f.msg))); }
    if f.Alive? { KeepaliveRoundTrip(f.keepalive); }
  }

  // ---------- what the server said ----------

  function MsgsOf(fs: seq<Frame>): seq<Msg> {
    if fs == [] then []
    else MsgsOf(fs[..|fs| - 1]) + (if fs[|fs| - 1].Data? && fs[|fs| - 1].msg.Some? then [fs[|fs| - 1].msg.value] else [])
  }

  function Stamp(events: seq<Decoded>, lsn: nat): seq<(Event, nat)> {
    seq(|events|, i requires 0 <= i < |events| => (events[i].event, lsn))
  }

  /** The events of a run of frames, each with the LSN of its frame. */
  function Said(mem: Memory, fs: seq<Frame>): seq<(Event, nat)> {
    if fs == [] then []
    else
      var before, f := fs[..|fs| - 1], fs[|fs| - 1];
      Said(mem, before) + Stamp(EventsIn(After(mem, MsgsOf(before)), f), LsnOf(f))
  }

  function Bare(seen: seq<Stamped>): seq<(Event, nat)> {
    seq(|seen|, i requires 0 <= i < |seen| => (seen[i].event, seen[i].lsn))
  }

  lemma {:induction false} TakenIsStamped(backfill: Option<seq<Mapping>>, h: Heard, events: seq<Decoded>, lsn: nat)
    ensures Bare(TakeAll(backfill, h, events, lsn).seen) == Bare(h.seen) + Stamp(events, lsn)
    ensures TakeAll(backfill, h, events, lsn).mem == h.mem && h.seen <= TakeAll(backfill, h, events, lsn).seen
  {
    if events == [] {
      assert Stamp(events, lsn) == [];
    } else {
      var n := |events| - 1;
      TakenIsStamped(backfill, h, events[..n], lsn);
      var g := TakeAll(backfill, h, events[..n], lsn);
      BareSnoc(g.seen, Stamped(events[n].event, lsn, Keep(backfill, g.rows, events[n].event).1));
      StampSnoc(events, lsn);
      hide Keep, Bare, Stamp;
    }
  }

  lemma BareSnoc(seen: seq<Stamped>, x: Stamped)
    ensures Bare(seen + [x]) == Bare(seen) + [(x.event, x.lsn)]
  {}

  lemma StampSnoc(events: seq<Decoded>, lsn: nat)
    requires events != []
    ensures Stamp(events, lsn) == Stamp(events[..|events| - 1], lsn) + [(events[|events| - 1].event, lsn)]
  {}

  lemma {:induction false} MemOfFrames(backfill: Option<seq<Mapping>>, h: Heard, fs: seq<Frame>)
    ensures HearAll(backfill, h, fs).mem == After(h.mem, MsgsOf(fs))
  {
    if fs != [] {
      var n := |fs| - 1;
      MemOfFrames(backfill, h, fs[..n]);
      hide Meaning, TakeAll, EventsIn;
      if fs[n].Data? && fs[n].msg.Some? {
        AfterSnoc(h.mem, MsgsOf(fs[..n]), fs[n].msg.value);
      } else {
        assert MsgsOf(fs) == MsgsOf(fs[..n]);
      }
    }
  }

  lemma AfterSnoc(mem: Memory, msgs: seq<Msg>, m: Msg)
    ensures After(mem, msgs + [m]) == Meaning(After(mem, msgs), m).0
  {
    hide Meaning;
    assert (msgs + [m])[..|msgs|] == msgs;
  }

  /** Every event of every frame is seen once, in order, with the LSN of its frame, whatever the backfill
      store does with it. */
  lemma {:induction false} HeardIsSaid(backfill: Option<seq<Mapping>>, h: Heard, fs: seq<Frame>)
    ensures Bare(HearAll(backfill, h, fs).seen) == Bare(h.seen) + Said(h.mem, fs)
  {
    if fs != [] {
      var n := |fs| - 1;
      HeardIsSaid(backfill, h, fs[..n]);
      MemOfFrames(backfill, h, fs[..n]);
      var g := HearAll(backfill, h, fs[..n]);
      TakenIsStamped(backfill, g, EventsIn(g.mem, fs[n]), LsnOf(fs[n]));
      hide TakeAll, EventsIn, Bare, Stamp, Remember;
    }
  }

  /** The frames that are keepalives asking for a reply. */
  ghost function Asking(fs: seq<Frame>): set<nat> {
    set i: nat | i < |fs| && fs[i].Alive? && fs[i].keepalive.replyRequested
  }

  lemma AskingSnoc(fs: seq<Frame>)
    requires fs != []
    ensures var n := |fs| - 1;
      |Asking(fs)| == |Asking(fs[..n])| + if fs[n].Alive? && fs[n].keepalive.replyRequested then 1 else 0
  {
    var n := |fs| - 1;
    if fs[n].Alive? && fs[n].keepalive.replyRequested {
      assert Asking(fs) == Asking(fs[..n]) + {n} && n !in Asking(fs[..n]);
    } else {
      assert Asking(fs) == Asking(fs[..n]);
    }
  }

  /** Every keepalive that asks gets one reply, and nothing else does; each reports the LSN confirmed last. */
  lemma {:induction false} RepliesSent(backfill: Option<seq<Mapping>>, h: Heard, fs: seq<Frame>)
    ensures var g := HearAll(backfill, h, fs);
      && g.confirmed == h.confirmed && h.replies <= g.replies && |g.replies| == |h.replies| + |Asking(fs)|
      && forall k :: |h.replies| <= k < |g.replies| ==> g.replies[k] == h.confirmed
  {
    if fs == [] {
      assert Asking(fs) == {};
    } else {
      var n := |fs| - 1;
      RepliesSent(backfill, h, fs[..n]);
      AskingSnoc(fs);
      var g := HearAll(backfill, h, fs[..n]);
      TakenReplies(backfill, g, EventsIn(g.mem, fs[n]), LsnOf(fs[n]));
      hide TakeAll, EventsIn, Remember, Asking;
    }
  }

  lemma {:induction false} TakenReplies(backfill: Option<seq<Mapping>>, h: Heard, events: seq<Decoded>, lsn: nat)
    ensures var g := TakeAll(backfill, h, events, lsn); g.confirmed == h.confirmed && g.replies == h.replies
  {
    hide Keep;
    if events != [] { TakenReplies(backfill, h, events[..|events| - 1], lsn); }
  }

  /** A row message in a frame, on a connection just opened: the events seen between it and the next frame
      are the ones its meaning has, under the frame's LSN. */
  lemma RowHeard(backfill: Option<seq<Mapping>>, h: Heard, fs: seq<Frame>, n: nat) returns (out: Outcome)
    requires h.mem.relations == map[] && n < |fs| && fs[n].Data? && fs[n].msg.Some? && IsRowMsg(fs[n].msg.value)
    ensures Decodes(out, Latest(MsgsOf(fs[..n]), fs[n].msg.value.id), fs[n].msg.value)
    ensures Bare(HearAll(backfill, h, fs[..n + 1]).seen) ==
      Bare(HearAll(backfill, h, fs[..n]).seen) + (if out.Yields? then Stamp(out.events, fs[n].start) else [])
  {
    var m, msgs := fs[n].msg.value, MsgsOf(fs[..n]);
    out := Meaning(After(h.mem, msgs), m).1;
    assert (msgs + [m])[..|msgs|] == msgs;
    RowDecoded(h.mem, msgs + [m], |msgs|);
    OutcomeAt(h.mem, msgs + [m], |msgs|);
    assert fs[..n + 1][..n] == fs[..n];
    MemOfFrames(backfill, h, fs[..n]);
    var g := HearAll(backfill, h, fs[..n]);
    TakenIsStamped(backfill, g, EventsIn(g.mem, fs[n]), LsnOf(fs[n]));
    hide Decodes, Latest, Outcomes, After, MsgsOf, TakeAll, Bare, Meaning;
  }

  // ---------- what is kept back ----------

  /** The staged rows after a run of live events, one after the other. */
  function Absorbed(mappings: seq<Mapping>, rows: Backfill.Rows, events: seq<(Event, nat)>): Backfill.Rows {
    if events == [] then rows
    else Backfill.Absorb(mappings, Absorbed(mappings, rows, events[..|events| - 1]), events[|events| - 1].0).0
  }

  function RowsAfter(backfill: Option<seq<Mapping>>, rows: Backfill.Rows, events: seq<(Event, nat)>): Backfill.Rows {
    if backfill.None? then rows else Absorbed(backfill.value, rows, events)
  }

  /** The event was kept from the sinks exactly if it updates a row that is staged; without a backfill none is. */
  ghost predicate RightlyKept(backfill: Option<seq<Mapping>>, rows: Backfill.Rows, s: Stamped) {
    s.absorbed <==>
      && backfill.Some? && s.event.op == Update && s.event.newRow.Some? && Find(backfill.value, s.event.table).Some?
      && var id := GetColumn(s.event.newRow.value, Find(backfill.value, s.event.table).value.idCol);
      id != "" && Backfill.RowKey(s.event.table, id) in rows
  }

  /** Each event meets the rows as the events before it left them. */
  ghost predicate KeptBack(backfill: Option<seq<Mapping>>, h: Heard, g: Heard) {
    && h.seen <= g.seen
    && var more := g.seen[|h.seen|..];
    && g.rows == RowsAfter(backfill, h.rows, Bare(more))
    && forall i :: 0 <= i < |more| ==> RightlyKept(backfill, RowsAfter(backfill, h.rows, Bare(more[..i])), more[i])
  }

  lemma RowsAfterSnoc(backfill: Option<seq<Mapping>>, rows: Backfill.Rows, more: seq<Stamped>, x: Stamped)
    ensures RowsAfter(backfill, rows, Bare(more + [x])) == Keep(backfill, RowsAfter(backfill, rows, Bare(more)), x.event).0
  {
    BareSnoc(more, x);
    assert (Bare(more) + [(x.event, x.lsn)])[..|Bare(more)|] == Bare(more);
    hide Bare, Backfill.Absorb;
  }

  lemma KeepsRightly(backfill: Option<seq<Mapping>>, rows: Backfill.Rows, ev: Event, lsn: nat)
    ensures RightlyKept(backfill, rows, Stamped(ev, lsn, Keep(backfill, rows, ev).1))
  {
    if backfill.Some? { Backfill.AbsorbedIff(backfill.value, rows, ev); }
    hide Backfill.Absorb, GetColumn, Find;
  }

  lemma TakeKeepsBack(backfill: Option<seq<Mapping>>, h: Heard, g: Heard, ev: Event, lsn: nat)
    requires KeptBack(backfill, h, g)
    ensures KeptBack(backfill, h, Take(backfill, g, ev, lsn))
  {
    var n, t := |h.seen|, Take(backfill, g, ev, lsn);
    var was, x := g.seen[n..], Stamped(ev, lsn, Keep(backfill, g.rows, ev).1);
    RowsAfterSnoc(backfill, h.rows, was, x);
    KeepsRightly(backfill, g.rows, ev, lsn);
    hide RowsAfter, RightlyKept, Keep, Bare;
    var more := t.seen[n..];
    assert more == was + [x] && more[..|was|] == was;
    forall i | 0 <= i < |more| ensures RightlyKept(backfill, RowsAfter(backfill, h.rows, Bare(more[..i])), more[i]) {
      if i < |was| { assert more[..i] == was[..i] && more[i] == was[i]; }
    }
  }

  lemma {:induction false} TakeAllKeepsBack(backfill: Option<seq<Mapping>>, h: Heard, g: Heard, events: seq<Decoded>, lsn: nat)
    requires KeptBack(backfill, h, g)
    ensures KeptBack(backfill, h, TakeAll(backfill, g, events, lsn))
  {
    hide KeptBack, Take;
    if events != [] {
      TakeAllKeepsBack(backfill, h, g, events[..|events| - 1], lsn);
      TakeKeepsBack(backfill, h, TakeAll(backfill, g, events[..|events| - 1], lsn), events[|events| - 1].event, lsn);
    }
  }

  /** Over any run of frames, what is kept from the sinks is exactly the updates of rows staged at that moment. */
  lemma {:induction false} WhatIsKeptBack(backfill: Option<seq<Mapping>>, h: Heard, fs: seq<Frame>)
    ensures KeptBack(backfill, h, HearAll(backfill, h, fs))
  {
    if fs == [] {
      assert h.seen[|h.seen|..] == [];
    } else {
      var n := |fs| - 1;
      WhatIsKeptBack(backfill, h, fs[..n]);
      var g := HearAll(backfill, h, fs[..n]);
      TakeAllKeepsBack(backfill, h, g, EventsIn(g.mem, fs[n]), LsnOf(fs[n]));
      hide KeptBack, TakeAll, EventsIn;
      SameSeen(backfill, h, TakeAll(backfill, g, EventsIn(g.mem, fs[n]), LsnOf(fs[n])), HearAll(backfill, h, fs));
    }
  }

  lemma SameSeen(backfill: Option<seq<Mapping>>, h: Heard, g: Heard, g': Heard)
    requires KeptBack(backfill, h, g) && g.seen == g'.seen && g.rows == g'.rows
    ensures KeptBack(backfill, h, g')
  {
    hide RowsAfter, Bare, RightlyKept;
  }

  // ---------- what it means for confirmation ----------

  /** The entries source `s` contributes, the first at position `from` of its log. */
  function EntriesOf(s: Delivery.SourceId, from: nat, seen: seq<Stamped>): seq<Confirmation.Entry> {
    if seen == [] then []
    else
      var n := |seen| - 1;
      EntriesOf(s, from, seen[..n]) + [Confirmation.Entry(Delivery.Job(s, from + n, seen[n].lsn), seen[n].absorbed)]
  }

  /** The log of source `s` holds, from position `from`, what the server said. */
  predicate Logs(wal: Confirmation.Wal, s: Delivery.SourceId, from: nat, said: seq<(Event, nat)>) {
    && from + |said| <= |wal(s)|
    && forall i :: 0 <= i < |said| ==> wal(s)[from + i] == Confirmation.WalEvent(said[i].1, said[i].0.op == Commit)
  }

  lemma LogsSnoc(wal: Confirmation.Wal, s: Delivery.SourceId, from: nat, seen: seq<Stamped>)
    requires seen != [] && Logs(wal, s, from, Bare(seen))
    ensures var n := |seen| - 1;
      Logs(wal, s, from, Bare(seen[..n])) && from + n < |wal(s)| && wal(s)[from + n].lsn == seen[n].lsn
  {
    var n := |seen| - 1;
    assert Bare(seen[..n]) == Bare(seen)[..n];
    assert Bare(seen)[n] == (seen[n].event, seen[n].lsn);
  }

  lemma {:induction false} EntriesStream(wal: Confirmation.Wal, start: Delivery.SourceId -> nat, s: Delivery.SourceId,
                                         seen: seq<Stamped>)
    requires Logs(wal, s, start(s), Bare(seen))
    ensures var entries := EntriesOf(s, start(s), seen);
      Confirmation.CountOf(entries, s) == |seen| && Confirmation.IsStream(wal, start, entries)
  {
    hide Logs, Bare;
    if seen != [] {
      hide Confirmation.IsStream, Confirmation.CountOf;
      var n := |seen| - 1;
      LogsSnoc(wal, s, start(s), seen);
      EntriesStream(wal, start, s, seen[..n]);
      var entries := EntriesOf(s, start(s), seen[..n]);
      var e := Confirmation.Entry(Delivery.Job(s, start(s) + n, seen[n].lsn), seen[n].absorbed);
      CountSnoc(entries, e);
      StreamSnoc(wal, start, entries, e);
    }
  }

  lemma CountSnoc(entries: seq<Confirmation.Entry>, e: Confirmation.Entry)
    ensures Confirmation.CountOf(entries + [e], e.job.source) == Confirmation.CountOf(entries, e.job.source) + 1
  {
    assert (entries + [e])[..|entries|] == entries;
  }

  /** A stream goes on with the next event of any of its sources. */
  lemma StreamSnoc(wal: Confirmation.Wal, start: Delivery.SourceId -> nat, entries: seq<Confirmation.Entry>,
                   e: Confirmation.Entry)
    requires Confirmation.IsStream(wal, start, entries)
    requires e.job.pos == start(e.job.source) + Confirmation.CountOf(entries, e.job.source) < |wal(e.job.source)|
    requires e.job.lsn == wal(e.job.source)[e.job.pos].lsn
    ensures Confirmation.IsStream(wal, start, entries + [e])
  {
    hide Confirmation.CountOf;
    var more := entries + [e];
    forall i | 0 <= i < |entries| ensures more[..i] == entries[..i] {}
    assert more[..|entries|] == entries;
  }

  /** The jobs posted stand for the events posted. */
  lemma {:induction false} PostedJobs(s: Delivery.SourceId, from: nat, seen: seq<Stamped>)
    ensures var jobs := Confirmation.Posted(EntriesOf(s, from, seen));
      && |jobs| == |PostedOf(seen)|
      && forall x :: 0 <= x < |jobs| ==>
           && jobs[x].source == s && from <= jobs[x].pos < from + |seen|
           && PostedOf(seen)[x] == (seen[jobs[x].pos - from].event, jobs[x].lsn)
  {
    if seen != [] {
      var n := |seen| - 1;
      PostedJobs(s, from, seen[..n]);
      assert EntriesOf(s, from, seen)[..|EntriesOf(s, from, seen)| - 1] == EntriesOf(s, from, seen[..n]);
    }
  }

  /** Reading the frames a server sends from position `start(s)` of a source's log gives a stream in the sense
      of Confirmation, so the guarantees about confirmed LSNs hold of it. */
  lemma FramesAreStream(wal: Confirmation.Wal, start: Delivery.SourceId -> nat, s: Delivery.SourceId,
                        backfill: Option<seq<Mapping>>, h: Heard, fs: seq<Frame>)
    requires h.seen == [] && Logs(wal, s, start(s), Said(h.mem, fs))
    ensures Confirmation.IsStream(wal, start, EntriesOf(s, start(s), HearAll(backfill, h, fs).seen))
  {
    HeardIsSaid(backfill, h, fs);
    assert Bare(HearAll(backfill, h, fs).seen) == Said(h.mem, fs);
    EntriesStream(wal, start, s, HearAll(backfill, h, fs).seen);
  }
}
