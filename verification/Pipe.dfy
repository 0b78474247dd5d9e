/** The gatt pipe end to end: many sessions' GattStreams over one carrier, and at the far end one
    stream per session id. The bytes each session receives are a prefix of what it wrote. */
module Pipe {
  import opened Options
  import opened Bytes
  import opened Frames
  import C = Carrier
  import G = Gatt
  import GattStream

  /** A GattStream's writing half. `wrote`: history of the bytes written to it. `chunks`: written
      and not yet started. `rest`: what `_write` has not sliced off the current chunk. `current`
      is the payload of the last fragment sent, as frame number `last`; `awaiting`: `_write` has
      not returned from that await yet. `dead`: destroyed. */
  datatype Sender = Sender(
    wrote: seq<byte>,
    chunks: seq<seq<byte>>,
    rest: seq<byte>,
    max: nat,
    last: Option<nat>,
    current: seq<byte>,
    awaiting: bool,
    dead: bool)

  const NEW_SENDER := Sender([], [], [], 0, None, [], false, false)

  datatype Receiver = Receiver(open: bool, got: seq<byte>)

  /** `opener`: the control frame that precedes a session's data in this direction, HELLO from
      the server and OPEN from the central. `delivered`: frames of the air that have arrived. */
  datatype State = State(
    opener: byte,
    carrier: C.State,
    delivered: nat,
    senders: map<Sid, Sender>,
    receivers: map<Sid, Receiver>)

  datatype Event =
    | Open(id: Sid, payload: seq<byte>)
    | Control(frame: Packet)
    | Write(id: Sid, chunk: seq<byte>)
    | StartChunk(id: Sid, max: nat)
    | SendFragment(id: Sid)
    | Await(id: Sid)
    | Destroy(id: Sid)
    | Transmit
    | Settle(ok: bool)
    | Drain(answers: seq<G.Answer>)
    | Reset
    | Deliver(accept: bool)
    | CloseReceiver(id: Sid)

  // ─── frames by session ──────────────────────────────────────────────────

  predicate IsKind(kind: byte, frame: Packet, id: Sid) {
    frame.kind == kind && frame.id == id
  }

  predicate IsData(frame: Packet, id: Sid) {
    IsKind(TYPE_DATA, frame, id)
  }

  /** The bytes the frames carry for the session, in order. */
  function DataOf(items: seq<C.Item>, id: Sid): seq<byte> {
    if items == [] then []
    else
      var n := |items| - 1;
      DataOf(items[..n], id) + PayloadFor(items[n].frame, id)
  }

  function PayloadFor(frame: Packet, id: Sid): seq<byte> {
    if IsData(frame, id) then frame.payload else []
  }

  // ─── steps ──────────────────────────────────────────────────────────────

  function Init(opener: byte): State {
    State(opener, C.EMPTY, 0, map[], map[])
  }

  predicate Enabled(p: State, e: Event) {
    match e
    case Open(id, payload) => id !in p.senders
    case Control(frame) => frame.kind != TYPE_DATA && frame.kind != p.opener
    case Write(id, chunk) => id in p.senders && !p.senders[id].dead
    case StartChunk(id, max) =>
      id in p.senders && Idle(p.senders[id]) && p.senders[id].rest == [] && p.senders[id].chunks != [] && max > 0
    case SendFragment(id) => id in p.senders && Idle(p.senders[id]) && p.senders[id].rest != [] && p.senders[id].max > 0
    case Await(id) => id in p.senders && p.senders[id].awaiting && p.senders[id].last.Some?
                      && p.senders[id].last.value < |p.carrier.settled|
    case Destroy(id) => id in p.senders
    case Transmit => p.carrier.queue != [] && !p.carrier.flying
    case Settle(ok) => p.carrier.queue != [] && (ok ==> p.carrier.flying)
    case Drain(answers) => true
    case Reset => true
    case Deliver(accept) => p.delivered < |p.carrier.air|
    case CloseReceiver(id) => id in p.receivers
  }

  predicate Idle(s: Sender) {
    !s.dead && !s.awaiting
  }

  function Apply(p: State, e: Event): State
    requires Enabled(p, e)
  {
    match e
    case Open(id, payload) =>
      p.(carrier := C.Push(p.carrier, Packet(p.opener, id, payload)), senders := p.senders[id := NEW_SENDER])
    case Control(frame) => p.(carrier := C.Push(p.carrier, frame))
    case Write(id, chunk) =>
      var s := p.senders[id];
      p.(senders := p.senders[id := s.(wrote := s.wrote + chunk, chunks := s.chunks + [chunk])])
    case StartChunk(id, max) =>
      var s := p.senders[id];
      p.(senders := p.senders[id := s.(rest := s.chunks[0], chunks := s.chunks[1..], max := max)])
    case SendFragment(id) => Fragment(p, id)
    case Await(id) =>
      var s := p.senders[id];
      p.(senders := p.senders[id := s.(awaiting := false, dead := s.dead || !p.carrier.settled[s.last.value].ok)])
    case Destroy(id) => p.(senders := p.senders[id := p.senders[id].(dead := true)])
    case Transmit => p.(carrier := C.Transmit(p.carrier))
    case Settle(ok) => p.(carrier := C.Settle(p.carrier, ok))
    case Drain(answers) => p.(carrier := G.Drain(G.Queue(p.carrier, false, []), answers).carrier)
    case Reset => p.(carrier := G.RejectAll(p.carrier))
    case Deliver(accept) => Receive(p, Wire(p.carrier.air[p.delivered].frame), accept).(delivered := p.delivered + 1)
    case CloseReceiver(id) => p.(receivers := p.receivers[id := p.receivers[id].(open := false)])
  }

  /** One round of the `_write` loop: slice, and send the slice as a DATA frame. */
  function Fragment(p: State, id: Sid): State
    requires id in p.senders && p.senders[id].rest != []
  {
    var s := p.senders[id];
    var now := GattStream.Slice(s.rest, 0, s.max);
    p.(carrier := C.Push(p.carrier, Packet(TYPE_DATA, id, now)),
       senders := p.senders[id := s.(rest := s.rest[|now|..], current := now, awaiting := true, last := Some(|p.carrier.sent|))])
  }

  /** What the far end does with the bytes of a frame: the opener creates or refuses the session's
      stream, data reaches an open stream only, everything else moves no bytes. */
  function Receive(p: State, bytes: seq<byte>, accept: bool): State {
    var f := Unwire(bytes);
    if f.None? then p
    else
      var id := f.value.id;
      if f.value.kind == p.opener then
        if id in p.receivers then p else p.(receivers := p.receivers[id := Receiver(accept, [])])
      else if f.value.kind == TYPE_DATA && id in p.receivers && p.receivers[id].open then
        p.(receivers := p.receivers[id := Receiver(true, p.receivers[id].got + f.value.payload)])
      else p
  }

  function Step(p: State, e: Event): State {
    if Enabled(p, e) then Apply(p, e) else p
  }

  function Run(opener: byte, events: seq<Event>): State {
    if events == [] then Init(opener) else Step(Run(opener, events[..|events| - 1]), events[|events| - 1])
  }

  // ─── invariant ──────────────────────────────────────────────────────────

  /** The fragment sent last and still on its way to the radio. */
  function Outstanding(c: C.State, s: Sender): seq<byte> {
    if s.last.Some? && !C.Handled(c, s.last.value) then s.current else []
  }

  /** The send that was awaited last came back rejected. */
  predicate Failed(c: C.State, s: Sender) {
    s.last.Some? && s.last.value < |c.settled| && !c.settled[s.last.value].ok
  }

  ghost predicate SenderOk(c: C.State, id: Sid, s: Sender) {
    && (s.last.Some? ==> s.last.value < |c.sent| && c.sent[s.last.value] == Packet(TYPE_DATA, id, s.current))
    && (s.last.None? ==> !s.awaiting)
    && (!s.dead && Failed(c, s) ==> s.awaiting)
    && (!s.awaiting && s.last.Some? && !s.dead ==> s.last.value < |c.settled|)
    && Passed(c, id, s) <= s.wrote
    && (!s.dead && !Failed(c, s) ==> s.wrote == Passed(c, id, s) + Unsent(s))
  }

  /** The session's bytes the radio has, or has still coming. */
  function Passed(c: C.State, id: Sid, s: Sender): seq<byte> {
    DataOf(c.air, id) + Outstanding(c, s)
  }

  function Unsent(s: Sender): seq<byte> {
    s.rest + Flatten(s.chunks)
  }

  /** A session has one fragment in the carrier at most, its last one. */
  ghost predicate OneInFlight(c: C.State, senders: map<Sid, Sender>) {
    forall m, id: Sid | 0 <= m < |c.sent| :: IsData(c.sent[m], id) ==> id in senders && LastAt(c, senders[id], m)
  }

  predicate LastAt(c: C.State, s: Sender, m: nat) {
    s.last.Some? && (m == s.last.value || (m < s.last.value && m < |c.settled|))
  }

  /** A session's opener was sent before any of its data. */
  ghost predicate OpenerFirst(opener: byte, sent: seq<Packet>, ids: set<Sid>) {
    && (forall m, id: Sid | 0 <= m < |sent| :: IsKind(opener, sent[m], id) ==> id in ids)
    && (forall m, k, id: Sid | 0 <= m < |sent| && 0 <= k < |sent| ::
          IsKind(opener, sent[m], id) && IsData(sent[k], id) ==> m < k)
  }

  ghost predicate ReceiversOk(p: State) {
    && p.delivered <= |p.carrier.air|
    && (forall id: Sid | id in p.receivers :: ReceiverOk(p.carrier.air[..p.delivered], id, p.receivers[id]))
    && OpenersSeen(p.opener, p.carrier.air[..p.delivered], p.receivers.Keys)
  }

  ghost predicate OpenersSeen(opener: byte, arrived: seq<C.Item>, ids: set<Sid>) {
    forall i | 0 <= i < |arrived| :: arrived[i].frame.kind == opener ==> arrived[i].frame.id in ids
  }

  predicate ReceiverOk(arrived: seq<C.Item>, id: Sid, r: Receiver) {
    r.got <= DataOf(arrived, id) && (r.open ==> r.got == DataOf(arrived, id))
  }

  ghost predicate Inv(p: State) {
    && p.opener != TYPE_DATA
    && C.Accounted(p.carrier)
    && (forall id: Sid | id in p.senders :: SenderOk(p.carrier, id, p.senders[id]))
    && OneInFlight(p.carrier, p.senders)
    && OpenerFirst(p.opener, p.carrier.sent, p.senders.Keys)
    && ReceiversOk(p)
  }

  // ─── what single frames say ─────────────────────────────────────────────

  lemma DataAppend(items: seq<C.Item>, item: C.Item, id: Sid)
    ensures DataOf(items + [item], id) == DataOf(items, id) + PayloadFor(item.frame, id)
  {
    assert (items + [item])[..|items|] == items;
  }

  lemma {:induction false} NoData(items: seq<C.Item>, id: Sid)
    requires forall i :: 0 <= i < |items| ==> !IsData(items[i].frame, id)
    ensures DataOf(items, id) == []
  {
    if items != [] {
      NoData(items[..|items| - 1], id);
    }
  }

  lemma {:induction false} DataPrefix(items: seq<C.Item>, n: nat, id: Sid)
    requires n <= |items|
    ensures DataOf(items[..n], id) <= DataOf(items, id)
  {
    if n < |items| {
      DataPrefix(items[..|items| - 1], n, id);
      assert items[..|items| - 1][..n] == items[..n];
    } else {
      assert items[..n] == items;
    }
  }

  // ─── senders under carrier steps ────────────────────────────────────────

  lemma PushSender(c: C.State, frame: Packet, id: Sid, s: Sender)
    requires C.Accounted(c) && SenderOk(c, id, s)
    ensures SenderOk(C.Push(c, frame), id, s)
  {}

  lemma TransmitPasses(c: C.State, id: Sid, s: Sender)
    requires C.Accounted(c) && SenderOk(c, id, s) && c.queue != [] && !c.flying
    requires IsData(c.sent[|c.settled|], id) ==> s.last == Some(|c.settled|)
    ensures Passed(C.Transmit(c), id, s) == Passed(c, id, s)
  {
    var head := c.queue[0];
    assert head == C.Item(|c.settled|, c.sent[|c.settled|]);
    DataAppend(c.air, head, id);
    if s.last == Some(|c.settled|) {
      assert PayloadFor(head.frame, id) == s.current;
      assert Outstanding(c, s) == s.current && Outstanding(C.Transmit(c), s) == [];
    } else {
      assert PayloadFor(head.frame, id) == [];
      assert Outstanding(c, s) == Outstanding(C.Transmit(c), s);
    }
  }

  lemma TransmitSender(c: C.State, id: Sid, s: Sender)
    requires C.Accounted(c) && SenderOk(c, id, s) && c.queue != [] && !c.flying
    requires IsData(c.sent[|c.settled|], id) ==> s.last == Some(|c.settled|)
    ensures SenderOk(C.Transmit(c), id, s)
  {
    TransmitPasses(c, id, s);
  }

  lemma SettleSender(c: C.State, ok: bool, id: Sid, s: Sender)
    requires C.Accounted(c) && SenderOk(c, id, s) && c.queue != [] && (ok ==> c.flying)
    ensures SenderOk(C.Settle(c, ok), id, s)
  {
    var c' := C.Settle(c, ok);
    if s.last == Some(|c.settled|) && !c.flying {
      assert Outstanding(c', s) == [] && Failed(c', s);
    } else {
      assert Outstanding(c', s) == Outstanding(c, s);
    }
  }

  // ─── the invariant under each step ──────────────────────────────────────

  lemma TransmitInv(p: State)
    requires Inv(p) && p.carrier.queue != [] && !p.carrier.flying
    ensures Inv(p.(carrier := C.Transmit(p.carrier)))
  {
    var c, c' := p.carrier, C.Transmit(p.carrier);
    C.TransmitAccounted(c);
    forall id: Sid | id in p.senders
      ensures SenderOk(c', id, p.senders[id])
    {
      TransmitSender(c, id, p.senders[id]);
    }
    assert c'.air[..p.delivered] == c.air[..p.delivered];
  }

  lemma SettleInv(p: State, ok: bool)
    requires Inv(p) && p.carrier.queue != [] && (ok ==> p.carrier.flying)
    ensures Inv(p.(carrier := C.Settle(p.carrier, ok)))
  {
    C.SettleAccounted(p.carrier, ok);
    forall id: Sid | id in p.senders
      ensures SenderOk(C.Settle(p.carrier, ok), id, p.senders[id])
    {
      SettleSender(p.carrier, ok, id, p.senders[id]);
    }
  }

  lemma {:induction false} DrainInv(p: State, q: G.Queue, answers: seq<G.Answer>)
    requires Inv(p) && q.carrier == p.carrier
    ensures Inv(p.(carrier := G.Drain(q, answers).carrier))
    decreases |q.carrier.queue|
  {
    if q.carrier.queue != [] && answers != [] && !answers[0].Full? {
      HandleInv(p, answers[0]);
      var c := G.Handle(q.carrier, answers[0]);
      DrainInv(p.(carrier := c), q.(offers := q.offers + [q.carrier.queue[0].n], carrier := c), answers[1..]);
    }
  }

  lemma HandleInv(p: State, answer: G.Answer)
    requires Inv(p) && p.carrier.queue != [] && !answer.Full?
    ensures Inv(p.(carrier := G.Handle(p.carrier, answer)))
  {
    if answer.Throws? {
      SettleInv(p, false);
    } else if p.carrier.flying {
      SettleInv(p, true);
    } else {
      TransmitInv(p);
      SettleInv(p.(carrier := C.Transmit(p.carrier)), true);
    }
  }

  lemma {:induction false} ResetInv(p: State)
    requires Inv(p)
    ensures Inv(p.(carrier := G.RejectAll(p.carrier)))
    decreases |p.carrier.queue|
  {
    if p.carrier.queue != [] {
      SettleInv(p, false);
      ResetInv(p.(carrier := C.Settle(p.carrier, false)));
    }
  }

  /** Pushing a frame moves no bytes of any session but, for a DATA frame, its own. */
  lemma PushSenders(c: C.State, senders: map<Sid, Sender>, frame: Packet)
    requires C.Accounted(c) && forall id: Sid | id in senders :: SenderOk(c, id, senders[id])
    ensures C.Accounted(C.Push(c, frame))
    ensures forall id: Sid | id in senders :: SenderOk(C.Push(c, frame), id, senders[id])
  {
    C.PushAccounted(c, frame);
    forall id: Sid | id in senders
      ensures SenderOk(C.Push(c, frame), id, senders[id])
    {
      PushSender(c, frame, id, senders[id]);
    }
  }

  lemma ControlInv(p: State, frame: Packet)
    requires Inv(p) && Enabled(p, Control(frame))
    ensures Inv(Apply(p, Control(frame)))
  {
    PushSenders(p.carrier, p.senders, frame);
    var sent := p.carrier.sent + [frame];
    forall m, id: Sid | 0 <= m < |sent|
      ensures m == |p.carrier.sent| ==> !IsData(sent[m], id) && !IsKind(p.opener, sent[m], id)
    {}
    assert OneInFlight(C.Push(p.carrier, frame), p.senders);
    assert OpenerFirst(p.opener, sent, p.senders.Keys);
  }

  lemma PushOpener(opener: byte, sent: seq<Packet>, ids: set<Sid>, id: Sid, payload: seq<byte>)
    requires OpenerFirst(opener, sent, ids) && id !in ids && opener != TYPE_DATA
    requires forall m | 0 <= m < |sent| :: !IsData(sent[m], id)
    ensures OpenerFirst(opener, sent + [Packet(opener, id, payload)], ids + {id})
  {
  }

  lemma PushData(opener: byte, sent: seq<Packet>, ids: set<Sid>, id: Sid, payload: seq<byte>)
    requires OpenerFirst(opener, sent, ids) && id in ids && opener != TYPE_DATA
    ensures OpenerFirst(opener, sent + [Packet(TYPE_DATA, id, payload)], ids)
  {
  }

  lemma OpenInv(p: State, id: Sid, payload: seq<byte>)
    requires Inv(p) && id !in p.senders
    ensures Inv(Apply(p, Open(id, payload)))
  {
    var c := p.carrier;
    var p' := Apply(p, Open(id, payload));
    PushSenders(c, p.senders, Packet(p.opener, id, payload));
    NoData(c.air, id);
    assert SenderOk(p'.carrier, id, NEW_SENDER);
    PushOpener(p.opener, c.sent, p.senders.Keys, id, payload);
    assert p'.senders.Keys == p.senders.Keys + {id};
    assert OneInFlight(p'.carrier, p'.senders);
  }

  lemma Slice(w: seq<byte>, d: seq<byte>, now: seq<byte>, rest: seq<byte>, tail: seq<byte>)
    requires w == d + [] + (now + rest + tail)
    ensures w == d + now + (rest + tail) && d + now <= w
  {
    assert d + [] == d;
    assert d + (now + rest + tail) == d + now + (rest + tail);
  }

  lemma FragmentSender(p: State, id: Sid)
    requires Inv(p) && Enabled(p, SendFragment(id))
    ensures var p' := Fragment(p, id); SenderOk(p'.carrier, id, p'.senders[id])
  {
    var c, s := p.carrier, p.senders[id];
    var c', s' := Fragment(p, id).carrier, Fragment(p, id).senders[id];
    assert s.rest == s'.current + s'.rest;
    assert Outstanding(c, s) == [];
    assert !C.Handled(c', |c.sent|) && Outstanding(c', s') == s'.current;
    Slice(s.wrote, DataOf(c.air, id), s'.current, s'.rest, Flatten(s.chunks));
    assert Passed(c', id, s') == DataOf(c.air, id) + s'.current;
  }

  lemma FragmentSenders(p: State, id: Sid)
    requires Inv(p) && Enabled(p, SendFragment(id))
    ensures var p' := Fragment(p, id);
            C.Accounted(p'.carrier) && forall i: Sid | i in p'.senders :: SenderOk(p'.carrier, i, p'.senders[i])
  {
    var p' := Fragment(p, id);
    FragmentSender(p, id);
    PushSenders(p.carrier, p.senders, Packet(TYPE_DATA, id, p'.senders[id].current));
  }

  lemma FragmentInv(p: State, id: Sid)
    requires Inv(p) && Enabled(p, SendFragment(id))
    ensures Inv(Fragment(p, id))
  {
    var c, p' := p.carrier, Fragment(p, id);
    var now := p'.senders[id].current;
    FragmentSenders(p, id);
    PushData(p.opener, c.sent, p.senders.Keys, id, now);
    assert p'.senders.Keys == p.senders.Keys;
    FragmentInFlight(p, id);
  }

  lemma FragmentInFlight(p: State, id: Sid)
    requires Inv(p) && Enabled(p, SendFragment(id))
    ensures OneInFlight(Fragment(p, id).carrier, Fragment(p, id).senders)
  {
    var c, c', senders' := p.carrier, Fragment(p, id).carrier, Fragment(p, id).senders;
    forall m, i: Sid | 0 <= m < |c'.sent| && IsData(c'.sent[m], i)
      ensures i in senders' && LastAt(c', senders'[i], m)
    {
      if m < |c.sent| {
        assert LastAt(c, p.senders[i], m);
      }
    }
  }

  lemma WriteSender(c: C.State, id: Sid, s: Sender, chunk: seq<byte>)
    requires SenderOk(c, id, s)
    ensures SenderOk(c, id, s.(wrote := s.wrote + chunk, chunks := s.chunks + [chunk]))
  {
    var s' := s.(wrote := s.wrote + chunk, chunks := s.chunks + [chunk]);
    assert s'.chunks[..|s.chunks|] == s.chunks;
    var d := Passed(c, id, s);
    assert Passed(c, id, s') == d;
    Associate(s.rest, Flatten(s.chunks), chunk);
    Associate(d, Unsent(s), chunk);
    PrefixGrows(d, s.wrote, chunk);
  }

  lemma Associate(a: seq<byte>, b: seq<byte>, c: seq<byte>)
    ensures a + b + c == a + (b + c)
  {}

  lemma PrefixGrows(a: seq<byte>, b: seq<byte>, c: seq<byte>)
    requires a <= b
    ensures a <= b + c
  {}

  /** A step of one sender that leaves the carrier alone. */
  lemma SenderInv(p: State, id: Sid, s: Sender)
    requires Inv(p) && id in p.senders && s.last == p.senders[id].last && SenderOk(p.carrier, id, s)
    ensures Inv(p.(senders := p.senders[id := s]))
  {
    assert p.senders[id := s].Keys == p.senders.Keys;
  }

  lemma StartSender(c: C.State, id: Sid, s: Sender, max: nat)
    requires SenderOk(c, id, s) && s.rest == [] && s.chunks != []
    ensures SenderOk(c, id, s.(rest := s.chunks[0], chunks := s.chunks[1..], max := max))
  {
    FlattenShift(s.chunks);
    var s' := s.(rest := s.chunks[0], chunks := s.chunks[1..], max := max);
    assert Unsent(s') == Unsent(s);
    assert Passed(c, id, s') == Passed(c, id, s);
  }

  /** An opener arriving for the first time finds no data of its session before it. */
  lemma OpenerArrives(p: State, id: Sid)
    requires Inv(p) && p.delivered < |p.carrier.air|
    requires IsKind(p.opener, p.carrier.air[p.delivered].frame, id)
    ensures DataOf(p.carrier.air[..p.delivered + 1], id) == []
  {
    var air, d := p.carrier.air, p.delivered;
    var arrived := air[..d + 1];
    forall i | 0 <= i < |arrived|
      ensures !IsData(arrived[i].frame, id)
    {
      if i < d {
        assert air[i].n < air[d].n;
      }
    }
    NoData(arrived, id);
  }

  lemma ReceiveIs(p: State, frame: Packet, accept: bool)
    ensures Receive(p, Wire(frame), accept) ==
      if frame.kind == p.opener then
        if frame.id in p.receivers then p else p.(receivers := p.receivers[frame.id := Receiver(accept, [])])
      else if frame.kind == TYPE_DATA && frame.id in p.receivers && p.receivers[frame.id].open then
        p.(receivers := p.receivers[frame.id := Receiver(true, p.receivers[frame.id].got + frame.payload)])
      else p
  {
    WireRoundTrip(frame);
  }

  lemma ReceiverStep(p: State, frame: Packet, accept: bool, id: Sid)
    requires Inv(p) && p.delivered < |p.carrier.air| && frame == p.carrier.air[p.delivered].frame
    requires id in Receive(p, Wire(frame), accept).receivers
    ensures ReceiverOk(p.carrier.air[..p.delivered + 1], id, Receive(p, Wire(frame), accept).receivers[id])
  {
    var air, d := p.carrier.air, p.delivered;
    ReceiveIs(p, frame, accept);
    assert air[..d + 1] == air[..d] + [air[d]];
    DataAppend(air[..d], air[d], id);
    if id in p.receivers {
      assert ReceiverOk(air[..d], id, p.receivers[id]);
    } else {
      OpenerArrives(p, id);
    }
  }

  lemma OpenersSeenStep(p: State, arrived: seq<C.Item>, item: C.Item, accept: bool)
    requires OpenersSeen(p.opener, arrived, p.receivers.Keys)
    ensures OpenersSeen(p.opener, arrived + [item], Receive(p, Wire(item.frame), accept).receivers.Keys)
  {
    ReceiveIs(p, item.frame, accept);
  }

  lemma DeliverReceivers(p: State, accept: bool)
    requires Inv(p) && Enabled(p, Deliver(accept))
    ensures ReceiversOk(Apply(p, Deliver(accept)))
  {
    var air, d := p.carrier.air, p.delivered;
    var p' := Apply(p, Deliver(accept));
    assert air[..d + 1] == air[..d] + [air[d]];
    OpenersSeenStep(p, air[..d], air[d], accept);
    ReceiveIs(p, air[d].frame, accept);
    forall id: Sid | id in p'.receivers
      ensures ReceiverOk(air[..d + 1], id, p'.receivers[id])
    {
      ReceiverStep(p, air[d].frame, accept, id);
    }
  }

  lemma DeliverInv(p: State, accept: bool)
    requires Inv(p) && Enabled(p, Deliver(accept))
    ensures Inv(Apply(p, Deliver(accept)))
  {
    ReceiveIs(p, p.carrier.air[p.delivered].frame, accept);
    DeliverReceivers(p, accept);
  }

  lemma StepInv(p: State, e: Event)
    requires Inv(p)
    ensures Inv(Step(p, e))
  {
    if Enabled(p, e) {
      match e
      case Open(id, payload) => OpenInv(p, id, payload);
      case Control(frame) => ControlInv(p, frame);
      case SendFragment(id) => FragmentInv(p, id);
      case Transmit => TransmitInv(p);
      case Settle(ok) => SettleInv(p, ok);
      case Drain(answers) => DrainInv(p, G.Queue(p.carrier, false, []), answers);
      case Reset => ResetInv(p);
      case Deliver(accept) => DeliverInv(p, accept);
      case CloseReceiver(id) =>
      case _ =>
        SenderStepOk(p, e);
        SenderInv(p, e.id, Apply(p, e).senders[e.id]);
    }
  }

  lemma StopSender(c: C.State, id: Sid, s: Sender, s': Sender)
    requires SenderOk(c, id, s)
    requires s' == s.(dead := true) || (s.last.Some? && s.last.value < |c.settled|
             && s' == s.(awaiting := false, dead := s.dead || !c.settled[s.last.value].ok))
    ensures SenderOk(c, id, s')
  {
    assert Passed(c, id, s') == Passed(c, id, s);
  }

  lemma SenderStepOk(p: State, e: Event)
    requires Enabled(p, e) && (e.Write? || e.StartChunk? || e.Await? || e.Destroy?)
    requires SenderOk(p.carrier, e.id, p.senders[e.id])
    ensures var s' := Apply(p, e).senders[e.id];
            && SenderOk(p.carrier, e.id, s') && s'.last == p.senders[e.id].last
            && Apply(p, e) == p.(senders := p.senders[e.id := s'])
  {
    var c, s, s' := p.carrier, p.senders[e.id], Apply(p, e).senders[e.id];
    if e.Write? {
      WriteSender(c, e.id, s, e.chunk);
    } else if e.StartChunk? {
      StartSender(c, e.id, s, e.max);
    } else {
      StopSender(c, e.id, s, s');
    }
  }

  lemma {:induction false} RunInv(opener: byte, events: seq<Event>)
    requires opener != TYPE_DATA
    ensures Inv(Run(opener, events))
  {
    if events != [] {
      RunInv(opener, events[..|events| - 1]);
      StepInv(Run(opener, events[..|events| - 1]), events[|events| - 1]);
    }
  }

  // ─── main results ───────────────────────────────────────────────────────

  /** In every run, whatever the radio and the other sessions do, the bytes a session's far end
      has received are a prefix of what was written to that session. */
  lemma ReceivedIsPrefix(opener: byte, events: seq<Event>, id: Sid)
    requires opener != TYPE_DATA
    requires id in Run(opener, events).receivers && id in Run(opener, events).senders
    ensures Run(opener, events).receivers[id].got <= Run(opener, events).senders[id].wrote
  {
    RunInv(opener, events);
    PrefixNow(Run(opener, events), id);
  }

  lemma PrefixNow(p: State, id: Sid)
    requires Inv(p) && id in p.receivers && id in p.senders
    ensures p.receivers[id].got <= p.senders[id].wrote
  {
    DataPrefix(p.carrier.air, p.delivered, id);
    assert ReceiverOk(p.carrier.air[..p.delivered], id, p.receivers[id]);
    assert SenderOk(p.carrier, id, p.senders[id]);
  }

  /** And all of it, once everything has drained: a session whose stream never failed and whose
      far end stayed open has received exactly what was written. */
  lemma ReceivedInFull(opener: byte, events: seq<Event>, id: Sid)
    requires opener != TYPE_DATA
    requires var p := Run(opener, events);
             && id in p.receivers && id in p.senders && p.receivers[id].open
             && p.carrier.queue == [] && p.delivered == |p.carrier.air|
             && !p.senders[id].dead && !Failed(p.carrier, p.senders[id])
             && p.senders[id].rest == [] && p.senders[id].chunks == []
    ensures Run(opener, events).receivers[id].got == Run(opener, events).senders[id].wrote
  {
    RunInv(opener, events);
    var p := Run(opener, events);
    assert ReceiverOk(p.carrier.air[..p.delivered], id, p.receivers[id]);
    assert SenderOk(p.carrier, id, p.senders[id]);
    assert p.carrier.air[..p.delivered] == p.carrier.air;
  }

  /** Bytes reach a far end only for a session that was opened. */
  lemma NoStrayBytes(opener: byte, events: seq<Event>, id: Sid)
    requires opener != TYPE_DATA && id in Run(opener, events).receivers
    requires id !in Run(opener, events).senders
    ensures Run(opener, events).receivers[id].got == []
  {
    RunInv(opener, events);
    var p := Run(opener, events);
    assert ReceiverOk(p.carrier.air[..p.delivered], id, p.receivers[id]);
    NothingSent(p.carrier, p.senders, p.delivered, id);
  }

  lemma NothingSent(c: C.State, senders: map<Sid, Sender>, n: nat, id: Sid)
    requires C.Accounted(c) && OneInFlight(c, senders) && id !in senders && n <= |c.air|
    ensures DataOf(c.air[..n], id) == []
  {
    var arrived := c.air[..n];
    forall i | 0 <= i < |arrived|
      ensures !IsData(arrived[i].frame, id)
    {
      var m := c.air[i].n;
      assert IsData(c.sent[m], id) ==> id in senders;
    }
    NoData(arrived, id);
  }

  /** A sender dies only by being destroyed, or of the rejection of the very send it awaits. */
  lemma SenderLives(p: State, e: Event, id: Sid)
    requires id in p.senders && !p.senders[id].dead
    ensures id in Step(p, e).senders
    ensures Step(p, e).senders[id].dead <==>
      || e == Destroy(id)
      || (e == Await(id) && Enabled(p, e) && !p.carrier.settled[p.senders[id].last.value].ok)
  {
    if e.Deliver? && Enabled(p, e) {
      ReceiveIs(p, p.carrier.air[p.delivered].frame, e.accept);
    }
  }

  /** Nothing but a delivery or its own close touches a receiver. */
  lemma ReceiversStay(p: State, e: Event)
    requires !e.Deliver?
    ensures Step(p, e).receivers == if e.CloseReceiver? && e.id in p.receivers
                                    then p.receivers[e.id := Receiver(false, p.receivers[e.id].got)] else p.receivers
  {}

  /** A receiver is opened by its session's first opening frame, as the far end decides, takes every
      DATA frame of its session while open, and closes only when told. */
  lemma Delivers(p: State, accept: bool, id: Sid)
    requires p.delivered < |p.carrier.air|
    ensures var r, frame := Step(p, Deliver(accept)), p.carrier.air[p.delivered].frame;
            if id !in p.receivers then
              if IsKind(p.opener, frame, id) then id in r.receivers && r.receivers[id] == Receiver(accept, [])
              else id !in r.receivers
            else
              && id in r.receivers && r.receivers[id].open == p.receivers[id].open
              && r.receivers[id].got == p.receivers[id].got
                                        + if p.receivers[id].open && p.opener != TYPE_DATA then PayloadFor(frame, id) else []
  {
    ReceiveIs(p, p.carrier.air[p.delivered].frame, accept);
  }
}
