/** Bytes on the wire: the big-endian readers of src/byte_utils.cpp with their cursor, and the frame
    headers of src/wal_frame.cpp (section 55.4 of the PostgreSQL 15 documentation, Streaming Replication
    Protocol). */
module Wire {

  import opened Wrappers

  newtype byte = x: int | 0 <= x < 256

  type Bytes = seq<byte>

  function Pow256(k: nat): (p: nat)
    ensures p > 0
  {
    if k == 0 then 1 else 256 * Pow256(k - 1)
  }

  /** `n` in `k` bytes, most significant first. */
  function BigEndian(n: nat, k: nat): (bs: Bytes)
    ensures |bs| == k
  {
    if k == 0 then [] else BigEndian(n / 256, k - 1) + [(n % 256) as byte]
  }

  function Fold(bs: Bytes): nat {
    if bs == [] then 0 else Fold(bs[..|bs| - 1]) * 256 + bs[|bs| - 1] as nat
  }

  lemma {:induction false} FoldBigEndian(n: nat, k: nat)
    requires n < Pow256(k)
    ensures Fold(BigEndian(n, k)) == n
  {
    if k > 0 {
      FoldBigEndian(n / 256, k - 1);
      assert BigEndian(n, k)[..k - 1] == BigEndian(n / 256, k - 1);
    }
  }

  function U8(n: nat): Bytes { BigEndian(n, 1) }
  function U16(n: nat): Bytes { BigEndian(n, 2) }
  function U32(n: nat): Bytes { BigEndian(n, 4) }
  function U64(n: nat): Bytes { BigEndian(n, 8) }

  const MAX16 := 0x1_0000
  const MAX32 := 0x1_0000_0000
  const MAX64 := 0x1_0000_0000_0000_0000

  lemma Widths()
    ensures Pow256(1) == 256 && Pow256(2) == MAX16 && Pow256(4) == MAX32 && Pow256(8) == MAX64
  {}

  // ---------- a cursor into a message ----------

  /** The bytes at the cursor are `enc`. */
  predicate At(data: Bytes, p: nat, enc: Bytes) {
    p + |enc| <= |data| && data[p..p + |enc|] == enc
  }

  lemma AtSplit(data: Bytes, p: nat, a: Bytes, b: Bytes)
    requires At(data, p, a + b)
    ensures At(data, p, a) && At(data, p + |a|, b)
  {
    var s := data[p..p + |a + b|];
    assert data[p..p + |a|] == s[..|a|] == a;
    assert data[p + |a|..p + |a| + |b|] == s[|a|..] == b;
  }

  method ReadU8(data: Bytes, p: nat, ghost n: nat) returns (v: nat, p': nat)
    requires n < 256 && At(data, p, U8(n))
    ensures v == n && p' == p + 1
  {
    assert data[p..p + 1] == U8(n) == [n as byte];
    assert data[p] == data[p..p + 1][0];
    v, p' := data[p] as nat, p + 1;
  }

  lemma FoldTwo(bs: Bytes)
    requires |bs| == 2
    ensures Fold(bs) == bs[0] as nat * 256 + bs[1] as nat
  {
    assert Fold(bs[..1]) == bs[0] as nat;
  }

  lemma FoldFour(bs: Bytes)
    requires |bs| == 4
    ensures Fold(bs) == bs[0] as nat * 0x100_0000 + bs[1] as nat * 0x1_0000 + bs[2] as nat * 0x100 + bs[3] as nat
  {
    assert bs[..3][..2] == bs[..2];
    FoldTwo(bs[..2]);
    assert Fold(bs[..3]) == Fold(bs[..2]) * 256 + bs[2] as nat;
  }

  method ReadU16(data: Bytes, p: nat, ghost n: nat) returns (v: nat, p': nat)
    requires n < MAX16 && At(data, p, U16(n))
    ensures v == n && p' == p + 2
  {
    Widths();
    FoldBigEndian(n, 2);
    assert data[p..p + 2] == U16(n);
    FoldTwo(data[p..p + 2]);
    v, p' := data[p] as nat * 256 + data[p + 1] as nat, p + 2;
  }

  method ReadU32(data: Bytes, p: nat, ghost n: nat) returns (v: nat, p': nat)
    requires n < MAX32 && At(data, p, U32(n))
    ensures v == n && p' == p + 4
  {
    Widths();
    FoldBigEndian(n, 4);
    assert data[p..p + 4] == U32(n);
    FoldFour(data[p..p + 4]);
    v := data[p] as nat * 0x100_0000 + data[p + 1] as nat * 0x1_0000 + data[p + 2] as nat * 0x100 + data[p + 3] as nat;
    p' := p + 4;
  }

  /** The eight-byte reader folds one byte at a time. */
  method ReadU64(data: Bytes, p: nat) returns (v: nat)
    requires p + 8 <= |data|
    ensures v == Fold(data[p..p + 8])
    ensures forall n: nat :: n < MAX64 && At(data, p, U64(n)) ==> v == n
  {
    v := 0;
    for i := 0 to 8
      invariant v == Fold(data[p..p + i])
    {
      assert data[p..p + i + 1][..i] == data[p..p + i];
      v := v * 256 + data[p + i] as nat;
    }
    Widths();
    forall n: nat | n < MAX64 && At(data, p, U64(n)) ensures v == n { FoldBigEndian(n, 8); }
  }

  /** A name and its terminating zero. */
  function CStr(s: Bytes): Bytes { s + [0] }

  predicate NoZero(s: Bytes) {
    forall i :: 0 <= i < |s| ==> s[i] != 0
  }

  method ReadCStr(data: Bytes, p: nat, ghost s: Bytes) returns (v: Bytes, p': nat)
    requires NoZero(s) && At(data, p, CStr(s))
    ensures v == s && p' == p + |CStr(s)|
  {
    ghost var enc := data[p..p + |s| + 1];
    assert enc == s + [0];
    var n := 0;
    while data[p + n] != 0
      invariant n <= |s| && data[p + n] == enc[n]
      decreases |s| - n
    {
      n := n + 1;
    }
    v, p' := data[p..p + n], p + n + 1;
    assert v == enc[..n];
  }

  // ---------- frames ----------

  datatype XLogData = XLogData(walStart: nat, walEnd: nat, sendTime: nat, payload: Bytes)

  datatype Keepalive = Keepalive(walEnd: nat, sendTime: nat, replyRequested: bool)

  const W: byte := 0x77
  const K: byte := 0x6B

  function EncodeXLogData(h: XLogData): Bytes {
    [W] + U64(h.walStart) + U64(h.walEnd) + U64(h.sendTime) + h.payload
  }

  function EncodeKeepalive(k: Keepalive): Bytes {
    [K] + U64(k.walEnd) + U64(k.sendTime) + U8(if k.replyRequested then 1 else 0)
  }

  /** A frame too short for its header is refused; the payload may be empty. */
  function ParseXLogData(buf: Bytes): (r: Option<XLogData>)
    ensures r.None? <==> |buf| < 25
  {
    if |buf| < 25 then None
    else Some(XLogData(Fold(buf[1..9]), Fold(buf[9..17]), Fold(buf[17..25]), buf[25..]))
  }

  function ParseKeepalive(buf: Bytes): (r: Option<Keepalive>)
    ensures r.None? <==> |buf| < 18
  {
    if |buf| < 18 then None
    else Some(Keepalive(Fold(buf[1..9]), Fold(buf[9..17]), buf[17] != 0))
  }

  lemma XLogDataRoundTrip(h: XLogData)
    requires h.walStart < MAX64 && h.walEnd < MAX64 && h.sendTime < MAX64
    ensures ParseXLogData(EncodeXLogData(h)) == Some(h)
  {
    var buf := EncodeXLogData(h);
    Widths();
    FoldBigEndian(h.walStart, 8);
    FoldBigEndian(h.walEnd, 8);
    FoldBigEndian(h.sendTime, 8);
    hide Fold, BigEndian, Pow256;
    assert buf[1..9] == U64(h.walStart) && buf[9..17] == U64(h.walEnd) && buf[17..25] == U64(h.sendTime) && buf[25..] == h.payload;
  }

  lemma KeepaliveRoundTrip(k: Keepalive)
    requires k.walEnd < MAX64 && k.sendTime < MAX64
    ensures ParseKeepalive(EncodeKeepalive(k)) == Some(k)
  {
    var buf := EncodeKeepalive(k);
    Widths();
    FoldBigEndian(k.walEnd, 8);
    FoldBigEndian(k.sendTime, 8);
    assert U8(if k.replyRequested then 1 else 0) == [if k.replyRequested then 1 else 0];
    hide Fold, BigEndian, Pow256;
    assert buf[1..9] == U64(k.walEnd) && buf[9..17] == U64(k.sendTime) && buf[17] == U8(if k.replyRequested then 1 else 0)[0];
  }
}
