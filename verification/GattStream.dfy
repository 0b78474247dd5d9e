/** GattStream of lib/gatt.js: how one chunk becomes frames that fit the link. */
module GattStream {
  import opened Bytes
  import opened Frames

  const DEFAULT_PAYLOAD := 150
  const ATT_OVERHEAD := 3

  function Min(a: nat, b: nat): nat {
    if a < b then a else b
  }

  /** The slices `_write` sends from `offset` on, for a payload size fixed over the chunk. */
  function Slices(chunk: seq<byte>, offset: nat, max: nat): seq<seq<byte>>
    requires max > 0
    decreases |chunk| - offset
  {
    if offset >= |chunk| then []
    else [Slice(chunk, offset, max)] + Slices(chunk, offset + max, max)
  }

  function Slice(chunk: seq<byte>, offset: nat, max: nat): seq<byte>
    requires offset < |chunk|
  {
    chunk[offset..offset + Min(max, |chunk| - offset)]
  }

  function Fragments(chunk: seq<byte>, max: nat): seq<seq<byte>>
    requires max > 0
  {
    Slices(chunk, 0, max)
  }

  /** Fragments are never empty, never over the limit, and add up to the chunk. */
  lemma {:induction false} SlicesConcat(chunk: seq<byte>, offset: nat, max: nat)
    requires max > 0 && offset <= |chunk|
    ensures Flatten(Slices(chunk, offset, max)) == chunk[offset..]
    ensures forall i :: 0 <= i < |Slices(chunk, offset, max)| ==> 0 < |Slices(chunk, offset, max)[i]| <= max
    decreases |chunk| - offset
  {
    if offset < |chunk| {
      var slices := Slices(chunk, offset, max);
      FlattenShift(slices);
      if offset + max <= |chunk| {
        SlicesConcat(chunk, offset + max, max);
        assert Slice(chunk, offset, max) + chunk[offset + max..] == chunk[offset..];
      }
    }
  }

  /** getMaxPayload followed by the constructor's default: `mtu` is 0 until negotiated,
      `configured` is the gatt.maxPayload option, 0 when absent. */
  function MaxPayload(mtu: nat, configured: int): (m: nat)
    ensures m > 0
    ensures mtu > ATT_OVERHEAD + HEADER ==> m + HEADER == mtu - ATT_OVERHEAD
    ensures mtu == 0 && configured > 0 ==> m == configured
    ensures (mtu == 0 && configured <= 0) || 0 < mtu <= ATT_OVERHEAD + HEADER ==> m == DEFAULT_PAYLOAD
  {
    var budget := if mtu != 0 then mtu - ATT_OVERHEAD - HEADER else configured;
    if budget > 0 then budget else DEFAULT_PAYLOAD
  }

  /** Each frame of the chunk fits what one write or notification may carry. */
  ghost predicate Fits(chunk: seq<byte>, max: nat, mtu: nat, id: Sid)
    requires max > 0
  {
    forall i :: 0 <= i < |Fragments(chunk, max)| ==> FrameSize(id, Fragments(chunk, max)[i]) <= mtu - ATT_OVERHEAD
  }

  /** Every frame of every chunk fits a negotiated mtu exactly when the mtu leaves room for at
      least one payload byte; below that the default size takes over and does not fit. */
  lemma FramesFitMtu(mtu: nat, configured: int, id: Sid)
    requires mtu > 0
    ensures (forall chunk: seq<byte> :: Fits(chunk, MaxPayload(mtu, configured), mtu, id))
            <==> mtu > ATT_OVERHEAD + HEADER
  {
    var max := MaxPayload(mtu, configured);
    if mtu > ATT_OVERHEAD + HEADER {
      forall chunk: seq<byte>
        ensures Fits(chunk, max, mtu, id)
      {
        SlicesConcat(chunk, 0, max);
        forall i | 0 <= i < |Fragments(chunk, max)|
          ensures FrameSize(id, Fragments(chunk, max)[i]) <= mtu - ATT_OVERHEAD
        {
          FrameSizeIs(id, Fragments(chunk, max)[i]);
        }
      }
    } else {
      var chunk: seq<byte> := [0];
      assert chunk[..Min(max, |chunk|)] == [0];
      FrameSizeIs(id, Fragments(chunk, max)[0]);
      assert !Fits(chunk, max, mtu, id);
    }
  }

  function FrameSize(id: Sid, payload: seq<byte>): nat {
    |Wire(Packet(TYPE_DATA, id, payload))|
  }

  lemma FrameSizeIs(id: Sid, payload: seq<byte>)
    ensures FrameSize(id, payload) == HEADER + |payload|
  {}

  /** `_write`: slice and await each send in turn. `sends[k]` says whether the k-th send of this
      chunk resolves; the first rejection ends the chunk with an error. So what was sent is a run
      of fragments from the front, all of them unless the last one sent was rejected. */
  method Write(chunk: seq<byte>, max: nat, sends: seq<bool>) returns (sent: seq<seq<byte>>, ok: bool)
    requires max > 0 && |sends| >= |chunk|
    ensures sent <= Fragments(chunk, max) && Flatten(sent) <= chunk && |sent| <= |sends|
    ensures if ok then Flatten(sent) == chunk else 0 < |sent| && !sends[|sent| - 1]
    ensures forall k :: 0 <= k < (if ok then |sent| else |sent| - 1) ==> sends[k]
  {
    sent := [];
    var offset := 0;
    while offset < |chunk|
      invariant |sent| <= offset && |sent| <= |chunk|
      invariant Progress(chunk, offset, max, sent)
      invariant forall k :: 0 <= k < |sent| ==> sends[k]
    {
      Advance(chunk, offset, max, sent);
      sent := sent + [Slice(chunk, offset, max)];
      offset := offset + max;
      if !sends[|sent| - 1] {
        SentSoFar(chunk, offset, max, sent);
        return sent, false;
      }
    }
    SentSoFar(chunk, offset, max, sent);
    ok := true;
  }

  ghost predicate Progress(chunk: seq<byte>, offset: nat, max: nat, sent: seq<seq<byte>>)
    requires max > 0
  {
    Fragments(chunk, max) == sent + Slices(chunk, offset, max)
  }

  lemma Advance(chunk: seq<byte>, offset: nat, max: nat, sent: seq<seq<byte>>)
    requires max > 0 && offset < |chunk| && Progress(chunk, offset, max, sent)
    ensures Progress(chunk, offset + max, max, sent + [Slice(chunk, offset, max)])
  {}

  lemma SentSoFar(chunk: seq<byte>, offset: nat, max: nat, sent: seq<seq<byte>>)
    requires max > 0 && Progress(chunk, offset, max, sent)
    ensures sent <= Fragments(chunk, max) && Flatten(sent) <= chunk
    ensures offset >= |chunk| ==> Flatten(sent) == chunk
  {
    var left := Slices(chunk, offset, max);
    assert offset >= |chunk| ==> left == [] && sent + left == sent;
    SlicesConcat(chunk, 0, max);
    PrefixFlatten(sent, sent + left);
  }

  lemma {:induction false} PrefixFlatten(a: seq<seq<byte>>, b: seq<seq<byte>>)
    requires a <= b
    ensures Flatten(a) <= Flatten(b)
  {
    if a != b {
      PrefixFlatten(a, b[..|b| - 1]);
    }
  }
}
