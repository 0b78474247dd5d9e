/** Both directions of the gatt pipe with the machinery that carries them: central to server over
    the write chain of one peripheral, server to centrals over the shared notify queue. */
module PipeEnds {
  import opened Options
  import opened Frames
  import C = Carrier
  import G = Gatt
  import P = Pipe
  import W = WriteChain

  /** What sessions and receivers do themselves, rather than the machinery. */
  predicate OfSessions(e: P.Event) {
    !e.Transmit? && !e.Settle? && !e.Drain? && !e.Reset?
  }

  /** The frame a session event sent, if it sent one. */
  function Sent(p: P.State, e: P.Event): Option<Packet> {
    var sent := P.Step(p, e).carrier.sent;
    if |sent| > |p.carrier.sent| then Some(sent[|sent| - 1]) else None
  }

  /** A session event pushes at most one frame, and does nothing else to the carrier. */
  lemma SessionPushes(p: P.State, e: P.Event)
    requires OfSessions(e)
    ensures P.Step(p, e).carrier == if Sent(p, e).Some? then C.Push(p.carrier, Sent(p, e).value) else p.carrier
  {
    if e.Deliver? && P.Enabled(p, e) {
      P.ReceiveIs(p, p.carrier.air[p.delivered].frame, e.accept);
    }
  }

  // ─── central to server ──────────────────────────────────────────────────

  datatype ChainEvent = Session(event: P.Event) | Radio(happening: W.Event)

  /** `acks`: the gatt.ackWrites option; control frames are always acknowledged. */
  datatype Central = Central(pipe: P.State, chain: W.Chain)

  function ChainStep(acks: bool, s: Central, e: ChainEvent): Central {
    match e
    case Session(event) =>
      if !OfSessions(event) then s
      else
        var f := Sent(s.pipe, event);
        Central(P.Step(s.pipe, event),
                if f.Some? then W.Enqueue(s.chain, f.value, acks || f.value.kind != TYPE_DATA) else s.chain)
    case Radio(happening) =>
      if happening.Queue? || (s.pipe.carrier.queue == [] && s.pipe.carrier.flying) then s
      else Central(s.pipe.(carrier := W.Carry(s.chain, s.pipe.carrier, happening)), W.Step(s.chain, happening))
  }

  function ChainRun(acks: bool, events: seq<ChainEvent>): Central {
    if events == [] then Central(P.Init(TYPE_OPEN), W.IDLE)
    else ChainStep(acks, ChainRun(acks, events[..|events| - 1]), events[|events| - 1])
  }

  /** The pipe's frames are the chain's sends. */
  ghost predicate ChainInv(s: Central) {
    P.Inv(s.pipe) && W.InOrder(s.chain) && W.Refines(s.chain, s.pipe.carrier)
  }

  lemma CarryInv(p: P.State, c: W.Chain, e: W.Event)
    requires P.Inv(p) && !e.Queue?
    ensures P.Inv(p.(carrier := W.Carry(c, p.carrier, e)))
  {
    var s := p.carrier;
    if e.Proceed? {
      if W.Ready(c, e.k) && s.queue != [] && !s.flying {
        P.SettleInv(p, false);
        P.TransmitInv(p);
        P.SettleInv(p.(carrier := C.Transmit(s)), true);
      }
    } else if s.flying {
      P.SettleInv(p, true);
      P.SettleInv(p, false);
    }
  }

  lemma ChainStepInv(acks: bool, s: Central, e: ChainEvent)
    requires ChainInv(s)
    ensures ChainInv(ChainStep(acks, s, e))
  {
    match e
    case Session(event) =>
      if OfSessions(event) {
        P.StepInv(s.pipe, event);
        SessionPushes(s.pipe, event);
        var f := Sent(s.pipe, event);
        if f.Some? {
          var acked := acks || f.value.kind != TYPE_DATA;
          W.StepInOrder(s.chain, W.Queue(f.value, acked));
          W.QueueRefines(s.chain, s.pipe.carrier, f.value, acked);
        }
      }
    case Radio(happening) =>
      if !happening.Queue? {
        CarryInv(s.pipe, s.chain, happening);
        W.StepInOrder(s.chain, happening);
        W.StepRefines(s.chain, s.pipe.carrier, happening);
      }
  }

  lemma {:induction false} ChainRunInv(acks: bool, events: seq<ChainEvent>)
    ensures ChainInv(ChainRun(acks, events))
  {
    if events == [] {
      P.RunInv(TYPE_OPEN, []);
    } else {
      ChainRunInv(acks, events[..|events| - 1]);
      ChainStepInv(acks, ChainRun(acks, events[..|events| - 1]), events[|events| - 1]);
    }
  }

  /** Main: over the write chain, under any acks, errors, throws and timeouts, what the server's
      stream of a session received is a prefix of what the central's wrote. */
  lemma CentralBytesArrive(acks: bool, events: seq<ChainEvent>, id: Sid)
    requires var p := ChainRun(acks, events).pipe; id in p.receivers && id in p.senders
    ensures var p := ChainRun(acks, events).pipe; p.receivers[id].got <= p.senders[id].wrote
  {
    ChainRunInv(acks, events);
    P.PrefixNow(ChainRun(acks, events).pipe, id);
  }

  /** Control frames are always acknowledged, data as configured. */
  ghost predicate AcksOk(acks: bool, c: W.Chain) {
    forall k | 0 <= k < |c.sends| :: c.sends[k].acked == (acks || c.sends[k].frame.kind != TYPE_DATA)
  }

  lemma {:induction false} RunAcks(acks: bool, events: seq<ChainEvent>)
    ensures AcksOk(acks, ChainRun(acks, events).chain)
  {
    if events != [] {
      var s := ChainRun(acks, events[..|events| - 1]);
      RunAcks(acks, events[..|events| - 1]);
      ChainRunInv(acks, events[..|events| - 1]);
      match events[|events| - 1]
      case Session(event) =>
        if OfSessions(event) && Sent(s.pipe, event).Some? {
          var f := Sent(s.pipe, event).value;
          W.QueueAppends(s.chain, W.Queue(f, acks || f.kind != TYPE_DATA));
        }
      case Radio(happening) => if !happening.Queue? { W.QueueAppends(s.chain, happening); }
    }
  }

  // ─── server to centrals ─────────────────────────────────────────────────

  /** A session's notify drains at once; the radio also drains on its own, and resets. */
  datatype QueueEvent =
    | Notifies(event: P.Event, answers: seq<G.Answer>)
    | Drains(answers: seq<G.Answer>)
    | Retries(answers: seq<G.Answer>)
    | Resets

  datatype Server = Server(pipe: P.State, queue: G.Queue)

  function WithQueue(p: P.State, q: G.Queue): Server {
    Server(p.(carrier := q.carrier), q)
  }

  function QueueStep(s: Server, e: QueueEvent): Server {
    match e
    case Notifies(event, answers) =>
      if !OfSessions(event) then s
      else
        var p, f := P.Step(s.pipe, event), Sent(s.pipe, event);
        if f.Some? then WithQueue(p, G.Notify(s.queue, f.value, answers)) else Server(p, s.queue)
    case Drains(answers) => WithQueue(s.pipe, G.Drain(s.queue, answers))
    case Retries(answers) => WithQueue(s.pipe, G.Step(s.queue, G.RetryFires(answers)))
    case Resets => WithQueue(s.pipe, G.Reset(s.queue))
  }

  function QueueRun(events: seq<QueueEvent>): Server {
    if events == [] then Server(P.Init(TYPE_HELLO), G.IDLE)
    else QueueStep(QueueRun(events[..|events| - 1]), events[|events| - 1])
  }

  ghost predicate QueueInv(s: Server) {
    P.Inv(s.pipe) && G.Settled(s.queue) && s.queue.carrier == s.pipe.carrier
  }

  lemma NotifiesInv(s: Server, event: P.Event, answers: seq<G.Answer>)
    requires QueueInv(s) && OfSessions(event)
    ensures QueueInv(QueueStep(s, Notifies(event, answers)))
  {
    P.StepInv(s.pipe, event);
    SessionPushes(s.pipe, event);
    var p, f := P.Step(s.pipe, event), Sent(s.pipe, event);
    if f.Some? {
      G.StepSettles(s.queue, G.Send(f.value, answers));
      P.DrainInv(p, s.queue.(carrier := C.Push(s.queue.carrier, f.value)), answers);
    }
  }

  lemma QueueStepInv(s: Server, e: QueueEvent)
    requires QueueInv(s)
    ensures QueueInv(QueueStep(s, e))
  {
    match e
    case Notifies(event, answers) => if OfSessions(event) { NotifiesInv(s, event, answers); }
    case Drains(answers) =>
      G.StepSettles(s.queue, G.ReadyToUpdate(answers));
      P.DrainInv(s.pipe, s.queue, answers);
    case Retries(answers) =>
      G.StepSettles(s.queue, G.RetryFires(answers));
      P.DrainInv(s.pipe, s.queue.(retry := false), answers);
      assert s.pipe.(carrier := s.pipe.carrier) == s.pipe;
    case Resets =>
      G.StepSettles(s.queue, G.ResetAll);
      P.ResetInv(s.pipe);
  }

  lemma {:induction false} QueueRunInv(events: seq<QueueEvent>)
    ensures QueueInv(QueueRun(events))
  {
    if events == [] {
      P.RunInv(TYPE_HELLO, []);
    } else {
      QueueRunInv(events[..|events| - 1]);
      QueueStepInv(QueueRun(events[..|events| - 1]), events[|events| - 1]);
    }
  }

  /** Main: over the notify queue, under any full queues, throws, retries and resets, what a
      central's stream received is a prefix of what the server's wrote to that session; and
      while frames wait the retry timer is armed. */
  lemma ServerBytesArrive(events: seq<QueueEvent>, id: Sid)
    requires var p := QueueRun(events).pipe; id in p.receivers && id in p.senders
    ensures var s := QueueRun(events);
            && s.pipe.receivers[id].got <= s.pipe.senders[id].wrote
            && (s.pipe.carrier.queue != [] ==> s.queue.retry)
  {
    QueueRunInv(events);
    P.PrefixNow(QueueRun(events).pipe, id);
  }
}
