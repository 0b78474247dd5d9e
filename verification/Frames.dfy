/** The wire codec, lib/frames.js. Every frame is [type:1][session id:8][payload]. */
module Frames {
  import opened Options
  import opened Bytes

  const TYPE_OPEN: byte := 1
  const TYPE_DATA: byte := 2
  const TYPE_CLOSE: byte := 3
  const TYPE_HELLO: byte := 4
  const SID_LEN := 8
  const HEADER := 1 + SID_LEN
  const KEY_LEN := 32
  const PIPE_L2CAP: byte := 1
  const REASON_FINAL: byte := 1

  datatype Frame = Frame(kind: byte, id: string, payload: seq<byte>)
  datatype KeyPayload = KeyPayload(key: seq<byte>, flags: byte, psm: Option<nat>)

  // ─── frames ─────────────────────────────────────────────────────────────

  function Encode(kind: byte, id: string, payload: seq<byte>): seq<byte>
    requires |id| == 2 * SID_LEN && IsHex(id)
  {
    [kind] + FromHex(id) + payload
  }

  function Decode(buf: seq<byte>): Option<Frame> {
    if |buf| < HEADER then None
    else Some(Frame(buf[0], ToHex(buf[1..HEADER]), buf[HEADER..]))
  }

  /** encodeFrame: allocate, then fill type, id and payload in place. */
  method EncodeFrame(kind: byte, id: string, payload: seq<byte>) returns (out: array<byte>)
    requires |id| == 2 * SID_LEN && IsHex(id)
    ensures fresh(out) && out[..] == Encode(kind, id, payload)
  {
    var sid := FromHex(id);
    out := new byte[HEADER + |payload|](_ => 0);
    out[0] := kind;
    forall i | 0 <= i < SID_LEN {
      out[1 + i] := sid[i];
    }
    forall i | 0 <= i < |payload| {
      out[HEADER + i] := payload[i];
    }
    assert out[..] == [kind] + sid + payload;
  }

  /** Decoding inverts encoding for every type and payload; the id comes back in canonical form. */
  lemma DecodeEncode(kind: byte, id: string, payload: seq<byte>)
    requires |id| == 2 * SID_LEN && IsHex(id)
    ensures Decode(Encode(kind, id, payload)) == Some(Frame(kind, Lower(id), payload))
  {
    var buf := Encode(kind, id, payload);
    assert buf[1..HEADER] == FromHex(id) && buf[HEADER..] == payload;
    HexRoundTrip(id);
  }

  /** Encoding inverts decoding: a buffer decodes exactly when it holds a header, its id is
      canonical, and no two buffers decode alike. */
  lemma EncodeDecode(buf: seq<byte>)
    ensures Decode(buf).Some? <==> |buf| >= HEADER
    ensures Decode(buf).Some? ==>
      var f := Decode(buf).value;
      && |f.id| == 2 * SID_LEN && IsLowerHex(f.id) && IsHex(f.id)
      && Encode(f.kind, f.id, f.payload) == buf
  {
    if |buf| >= HEADER {
      var sid := buf[1..HEADER];
      LowerHexIsHex(ToHex(sid));
      BytesRoundTrip(sid);
      Split(buf);
    }
  }

  lemma Split(buf: seq<byte>)
    requires |buf| >= HEADER
    ensures buf == [buf[0]] + buf[1..HEADER] + buf[HEADER..]
  {
  }

  // ─── session ids ────────────────────────────────────────────────────────

  /** A session id, by its eight bytes; the source keeps its hexadecimal form `Hex`. */
  datatype Sid = Sid(b0: byte, b1: byte, b2: byte, b3: byte, b4: byte, b5: byte, b6: byte, b7: byte)

  function Raw(id: Sid): (r: seq<byte>)
    ensures |r| == SID_LEN
  {
    [id.b0, id.b1, id.b2, id.b3, id.b4, id.b5, id.b6, id.b7]
  }

  function SidOf(r: seq<byte>): (id: Sid)
    requires |r| == SID_LEN
    ensures Raw(id) == r
  {
    Sid(r[0], r[1], r[2], r[3], r[4], r[5], r[6], r[7])
  }

  function Hex(id: Sid): string {
    ToHex(Raw(id))
  }

  /** Ids and sixteen lower-case hex digits name the same things, so keying by either is the same. */
  lemma HexIsCanonical(id: Sid, other: Sid)
    ensures |Hex(id)| == 2 * SID_LEN && IsHex(Hex(id)) && Lower(Hex(id)) == Hex(id) && FromHex(Hex(id)) == Raw(id)
    ensures Hex(id) == Hex(other) <==> id == other
  {
    LowerHexIsHex(Hex(id));
    BytesRoundTrip(Raw(id));
    BytesRoundTrip(Raw(other));
    assert Raw(id) == Raw(other) ==> id == SidOf(Raw(id)) == SidOf(Raw(other)) == other;
  }

  /** A frame by the session it belongs to. */
  datatype Packet = Packet(kind: byte, id: Sid, payload: seq<byte>)

  function Wire(p: Packet): seq<byte> {
    [p.kind] + Raw(p.id) + p.payload
  }

  function Unwire(buf: seq<byte>): Option<Packet> {
    if |buf| < HEADER then None else Some(Packet(buf[0], SidOf(buf[1..HEADER]), buf[HEADER..]))
  }

  /** Packets on the wire are what encodeFrame and decodeFrame make of them. */
  lemma WireIsEncode(p: Packet, buf: seq<byte>)
    ensures |Hex(p.id)| == 2 * SID_LEN && IsHex(Hex(p.id)) && Wire(p) == Encode(p.kind, Hex(p.id), p.payload)
    ensures Decode(buf) == match Unwire(buf)
                           case None => None
                           case Some(q) => Some(Frame(q.kind, Hex(q.id), q.payload))
  {
    HexIsCanonical(p.id, p.id);
  }

  /** The far end reads back the packet that was meant. */
  lemma WireRoundTrip(p: Packet)
    ensures Unwire(Wire(p)) == Some(p)
  {
    var buf := Wire(p);
    assert buf[1..HEADER] == Raw(p.id) && buf[HEADER..] == p.payload;
    assert SidOf(Raw(p.id)) == p.id;
  }

  // ─── OPEN and HELLO payloads ────────────────────────────────────────────

  function EncodeKey(key: seq<byte>, flags: byte, psm: Option<nat>): seq<byte> {
    if flags == 0 then key
    else if psm.None? then key + [flags]
    else key + [flags, (psm.value / 256 % 256) as byte, (psm.value % 256) as byte]
  }

  function BigEndian(hi: byte, lo: byte): nat {
    256 * hi as nat + lo as nat
  }

  function DecodeKey(payload: seq<byte>): KeyPayload {
    KeyPayload(
      if |payload| < KEY_LEN then payload else payload[..KEY_LEN],
      if |payload| > KEY_LEN then payload[KEY_LEN] else 0,
      if |payload| >= KEY_LEN + 3 then Some(BigEndian(payload[KEY_LEN + 1], payload[KEY_LEN + 2])) else None)
  }

  /** Key payloads round-trip exactly when a psm rides on nonzero flags and fits sixteen bits:
      with zero flags the psm is dropped, and a wider psm is truncated. */
  lemma KeyRoundTrip(key: seq<byte>, flags: byte, psm: Option<nat>)
    requires |key| == KEY_LEN
    ensures DecodeKey(EncodeKey(key, flags, psm)) == KeyPayload(key, flags, psm)
            <==> psm.None? || (flags != 0 && psm.value < 0x1_0000)
    ensures DecodeKey(EncodeKey(key, flags, psm)).key == key
    ensures DecodeKey(EncodeKey(key, flags, psm)).flags == flags
  {
    var payload := EncodeKey(key, flags, psm);
    assert payload[..KEY_LEN] == key;
    if flags != 0 && psm.Some? {
      var n := psm.value;
      assert payload[KEY_LEN + 1] as int == n / 256 % 256 && payload[KEY_LEN + 2] as int == n % 256;
      SixteenBits(n);
    }
  }

  lemma SixteenBits(n: nat)
    ensures 256 * (n / 256 % 256) + n % 256 == n <==> n < 0x1_0000
  {
    if n < 0x1_0000 {
      assert n / 256 < 256;
    }
  }

  // ─── CLOSE payloads ─────────────────────────────────────────────────────

  function EncodeReason(reason: byte): seq<byte> {
    if reason != 0 then [reason] else []
  }

  function DecodeReason(payload: seq<byte>): byte {
    if |payload| > 0 then payload[0] else 0
  }

  /** A CLOSE frame carries its reason across the wire, the empty payload meaning none. */
  lemma ReasonRoundTrip(id: Sid, reason: byte)
    ensures var p := Unwire(Wire(Packet(TYPE_CLOSE, id, EncodeReason(reason))));
            p.Some? && p.value.kind == TYPE_CLOSE && p.value.id == id && DecodeReason(p.value.payload) == reason
  {
    WireRoundTrip(Packet(TYPE_CLOSE, id, EncodeReason(reason)));
  }
}
