/** readIdPreamble of lib/l2cap.js: the first eight bytes of a fresh channel name
    the session it belongs to, however the byte stream is cut into deliveries. */
module Preamble {
  import opened Options
  import opened Bytes
  import opened Frames

  /** Bytes gathered so far, or the resolved promise: id, glued bytes, and the deliveries
      that come after the switchover and reach the stream directly. */
  datatype Reading =
    | Waiting(buf: seq<byte>)
    | Matched(id: string, rest: seq<byte>, later: seq<seq<byte>>)

  function Advance(r: Reading, data: seq<byte>): Reading {
    match r
    case Waiting(buf) =>
      var all := buf + data;
      if |all| >= SID_LEN then Matched(ToHex(all[..SID_LEN]), all[SID_LEN..], []) else Waiting(all)
    case Matched(id, rest, later) => Matched(id, rest, later + [data])
  }

  function Read(chunks: seq<seq<byte>>): Reading {
    if chunks == [] then Waiting([]) else Advance(Read(chunks[..|chunks| - 1]), chunks[|chunks| - 1])
  }

  /** What the session's stream receives once matched: the glued bytes, then each delivery. */
  function Received(r: Reading): seq<byte>
    requires r.Matched?
  {
    r.rest + Flatten(r.later)
  }

  /** The reading depends on the bytes alone, never on how they were chunked: it resolves as soon
      as eight have arrived, names the first eight, and passes on every later byte in order. */
  lemma {:induction false} ReadIgnoresChunking(chunks: seq<seq<byte>>)
    ensures var all := Flatten(chunks);
            if |all| < SID_LEN then Read(chunks) == Waiting(all)
            else Read(chunks).Matched? && Read(chunks).id == ToHex(all[..SID_LEN])
                 && Received(Read(chunks)) == all[SID_LEN..]
  {
    if chunks != [] {
      var n := |chunks| - 1;
      var front, data := Flatten(chunks[..n]), chunks[n];
      ReadIgnoresChunking(chunks[..n]);
      if |front| >= SID_LEN {
        AdvanceMatched(Read(chunks[..n]), front, data);
      }
    }
  }

  lemma AdvanceMatched(r: Reading, front: seq<byte>, data: seq<byte>)
    requires r.Matched? && |front| >= SID_LEN && Received(r) == front[SID_LEN..]
    ensures Received(Advance(r, data)) == (front + data)[SID_LEN..]
    ensures (front + data)[..SID_LEN] == front[..SID_LEN]
  {
    FlattenAppend(r.later, data);
    assert r.rest + (Flatten(r.later) + data) == Received(r) + data;
  }

  /** What the central sends, its session id then its stream, is what the server's session reads:
      the same id and the same bytes, under any two ways of cutting the channel. */
  lemma PreambleDelivers(id: Sid, body: seq<byte>, chunks: seq<seq<byte>>)
    requires IsHex(Hex(id)) && Flatten(chunks) == FromHex(Hex(id)) + body
    ensures Read(chunks).Matched? && Read(chunks).id == Hex(id) && Received(Read(chunks)) == body
  {
    ReadIgnoresChunking(chunks);
    HexIsCanonical(id, id);
    var all := Raw(id) + body;
    assert all[..SID_LEN] == Raw(id) && all[SID_LEN..] == body;
  }

  /** The closure of readIdPreamble: it owns the channel's data events until it resolves. */
  class Reader {
    var buf: seq<byte>
    var id: Option<string>
    var rest: seq<byte>
    var listening: bool

    /** No bytes are kept aside while listening, and a listener that stopped by itself has an id. */
    ghost predicate Valid()
      reads this
    {
      (listening ==> id.None? && |buf| < SID_LEN) && (id.Some? ==> !listening)
    }

    ghost function State(): Reading
      reads this
    {
      if id.Some? then Matched(id.value, rest, []) else Waiting(buf)
    }

    constructor ()
      ensures Valid() && listening && State() == Read([])
    {
      buf, id, rest, listening := [], None, [], true;
    }

    method OnData(data: seq<byte>)
      requires Valid() && listening
      modifies this
      ensures Valid() && State() == Advance(old(State()), data)
      ensures listening == State().Waiting?
    {
      buf := buf + data;
      if |buf| >= SID_LEN {
        Finish(Some(ToHex(buf[..SID_LEN])), buf[SID_LEN..]);
      }
    }

    method OnTimeout()
      requires Valid() && listening
      modifies this
      ensures Valid() && !listening && id == None
    {
      Finish(None, []);
    }

    method Finish(id: Option<string>, rest: seq<byte>)
      modifies this
      ensures this.id == id && this.rest == rest && !listening && buf == old(buf)
    {
      listening := false;
      this.id, this.rest := id, rest;
    }
  }
}
