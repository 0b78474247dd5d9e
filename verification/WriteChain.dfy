/** lib/gatt.js, central side: one write in flight per peripheral. Each send is a promise chained
    behind the previous one; its continuation runs once that one is settled, either way. */
module WriteChain {
  import opened Options
  import opened Frames
  import C = Carrier

  datatype Status = Chained | Writing | Done(ok: bool)

  /** `prev`: the promise this send was chained behind. */
  datatype Send = Send(frame: Packet, acked: bool, prev: Option<nat>, status: Status)

  /** `tail`: peripheral._writeChain, by send number. `pairs`: the sends whose write and error
      listeners are registered on the peripheral. `writes` and `air` are histories: the sends for
      which peripheral.write was called, and what it took without throwing. */
  datatype Chain = Chain(
    sends: seq<Send>,
    tail: Option<nat>,
    pairs: set<nat>,
    writes: seq<nat>,
    air: seq<C.Item>)

  const IDLE := Chain([], None, {}, [], [])

  datatype Event =
    | Queue(frame: Packet, acked: bool)
    | Proceed(k: nat, throws: bool)
    | WriteEvent
    | ErrorEvent
    | TimedOut(k: nat)

  predicate Ready(c: Chain, k: nat) {
    && k < |c.sends| && c.sends[k].status.Chained?
    && (c.sends[k].prev.Some? ==> c.sends[k].prev.value < |c.sends| && c.sends[c.sends[k].prev.value].status.Done?)
  }

  function Enqueue(c: Chain, frame: Packet, acked: bool): Chain {
    c.(sends := c.sends + [Send(frame, acked, c.tail, Chained)], tail := Some(|c.sends|))
  }

  /** The continuation of send `k`: register listeners, call write, and clean up if it throws. */
  function WriteOnce(c: Chain, k: nat, throws: bool): Chain
    requires k < |c.sends|
  {
    var s := c.sends[k];
    var status := if throws then Done(false) else if s.acked then Writing else Done(true);
    c.(sends := c.sends[k := s.(status := status)],
       pairs := if status.Writing? then c.pairs + {k} else c.pairs,
       writes := c.writes + [k],
       air := if throws then c.air else c.air + [C.Item(k, s.frame)])
  }

  /** A completion event reaches every registered pair; each removes itself and settles its send. */
  function SettlePairs(c: Chain, ok: bool): Chain {
    c.(sends := seq(|c.sends|, i requires 0 <= i < |c.sends| =>
                  if i in c.pairs then c.sends[i].(status := Done(ok)) else c.sends[i]),
       pairs := {})
  }

  function TimeOut(c: Chain, k: nat): Chain
    requires k < |c.sends|
  {
    c.(sends := c.sends[k := c.sends[k].(status := Done(false))], pairs := c.pairs - {k})
  }

  function Step(c: Chain, e: Event): Chain {
    match e
    case Queue(frame, acked) => Enqueue(c, frame, acked)
    case Proceed(k, throws) => if Ready(c, k) then WriteOnce(c, k, throws) else c
    case WriteEvent => SettlePairs(c, true)
    case ErrorEvent => SettlePairs(c, false)
    case TimedOut(k) => if k in c.pairs && k < |c.sends| then TimeOut(c, k) else c
  }

  function Run(events: seq<Event>): Chain {
    if events == [] then IDLE else Step(Run(events[..|events| - 1]), events[|events| - 1])
  }

  /** Writes are called in send order, each only after every earlier send is settled, and one
      listener pair is registered exactly while one acknowledged write is out. */
  ghost predicate InOrder(c: Chain) {
    var n := |c.writes|;
    && c.tail == (if c.sends == [] then None else Some(|c.sends| - 1))
    && (forall k :: 0 <= k < |c.sends| ==> c.sends[k].prev == if k == 0 then None else Some(k - 1))
    && n <= |c.sends| && (forall i :: 0 <= i < n ==> c.writes[i] == i)
    && (forall k :: 0 <= k < n - 1 ==> c.sends[k].status.Done?)
    && (n > 0 ==> !c.sends[n - 1].status.Chained?)
    && (forall k :: n <= k < |c.sends| ==> c.sends[k].status.Chained?)
    && c.pairs == (if n > 0 && c.sends[n - 1].status.Writing? then {n - 1} else {})
  }

  lemma ProceedInOrder(c: Chain, k: nat, throws: bool)
    requires InOrder(c) && Ready(c, k)
    ensures InOrder(WriteOnce(c, k, throws)) && k == |c.writes| && c.pairs == {}
    ensures k > 0 ==> c.sends[k - 1].status.Done?
  {}

  lemma StepInOrder(c: Chain, e: Event)
    requires InOrder(c)
    ensures InOrder(Step(c, e))
  {
    match e
    case Queue(frame, acked) =>
    case Proceed(k, throws) => if Ready(c, k) { ProceedInOrder(c, k, throws); }
    case WriteEvent =>
    case ErrorEvent =>
    case TimedOut(k) =>
  }

  lemma {:induction false} RunInOrder(events: seq<Event>)
    ensures InOrder(Run(events))
  {
    if events != [] {
      RunInOrder(events[..|events| - 1]);
      StepInOrder(Run(events[..|events| - 1]), events[|events| - 1]);
    }
  }

  /** A settled send stays settled the way it was; its frame and order never change. */
  lemma SettledOnce(c: Chain, e: Event, k: nat)
    requires InOrder(c) && k < |c.sends|
    ensures k < |Step(c, e).sends| && Step(c, e).sends[k].frame == c.sends[k].frame
    ensures c.sends[k].status.Done? ==> Step(c, e).sends[k] == c.sends[k]
  {}

  /** A rejection never blocks the chain: while no write is out, the first unsettled send may go. */
  lemma NeverBlocked(c: Chain)
    requires InOrder(c) && c.pairs == {}
    ensures |c.writes| < |c.sends| ==> Ready(c, |c.writes|)
    ensures |c.writes| == |c.sends| ==> forall k :: 0 <= k < |c.sends| ==> c.sends[k].status.Done?
  {
    var k := |c.writes|;
    assert k > 0 ==> k - 1 !in c.pairs && c.sends[k - 1].status.Done?;
  }

  /** What each event makes of each send: a completion resolves the write that is out, an error or
      its timeout rejects it, a write goes out only as the first of those still waiting with all
      before it settled, and is rejected at once if it throws, resolved at once if it needs no
      acknowledgement. */
  lemma EventOutcomes(c: Chain, e: Event, k: nat)
    requires InOrder(c) && k < |c.sends|
    ensures var was, now := c.sends[k].status, Step(c, e).sends[k].status;
            match e
            case Queue(_, _) => now == was
            case Proceed(j, throws) =>
              if j == k && k == |c.writes| && (k > 0 ==> c.sends[k - 1].status.Done?) && throws then now == Done(false)
              else if j == k && k == |c.writes| && (k > 0 ==> c.sends[k - 1].status.Done?) then
                now == if c.sends[k].acked then Writing else Done(true)
              else now == was
            case WriteEvent => now == if was.Writing? then Done(true) else was
            case ErrorEvent => now == if was.Writing? then Done(false) else was
            case TimedOut(j) => now == if j == k && was.Writing? then Done(false) else was
  {}

  /** A send joins the end of the chain, behind the one before it; no other event adds or drops one. */
  lemma QueueAppends(c: Chain, e: Event)
    requires InOrder(c)
    ensures var r, n := Step(c, e), |c.sends|;
            if e.Queue? then r.sends == c.sends + [Send(e.frame, e.acked, if n == 0 then None else Some(n - 1), Chained)]
            else |r.sends| == n && forall k | 0 <= k < n ::
              r.sends[k].frame == c.sends[k].frame && r.sends[k].acked == c.sends[k].acked && r.sends[k].prev == c.sends[k].prev
  {}

  /** The radio is handed exactly the frames whose write was called and did not throw. */
  lemma ProceedWrites(c: Chain, e: Event)
    requires InOrder(c)
    ensures var r, n := Step(c, e), |c.writes|;
            if e.Proceed? && e.k == n && n < |c.sends| && (n > 0 ==> c.sends[n - 1].status.Done?) then
              r.writes == c.writes + [n] && r.air == c.air + if e.throws then [] else [C.Item(n, c.sends[n].frame)]
            else r.writes == c.writes && r.air == c.air
  {}

  // ─── the chain is a carrier ─────────────────────────────────────────────

  /** The chain, seen as a FIFO whose head may already be with the radio. */
  ghost predicate Refines(c: Chain, s: C.State) {
    && C.Accounted(s)
    && |s.sent| == |c.sends| && (forall k :: 0 <= k < |c.sends| ==> s.sent[k] == c.sends[k].frame)
    && (forall k :: 0 <= k < |s.settled| ==> c.sends[k].status == Done(s.settled[k].ok))
    && (forall k :: |s.settled| <= k < |c.sends| ==> !c.sends[k].status.Done?)
    && (s.flying <==> |s.settled| < |c.sends| && c.sends[|s.settled|].status.Writing?)
    && s.air == c.air
  }

  /** The carrier steps behind one chain event. */
  function Carry(c: Chain, s: C.State, e: Event): C.State
    requires s.queue == [] ==> !s.flying
  {
    match e
    case Queue(frame, acked) => C.Push(s, frame)
    case Proceed(k, throws) =>
      if !Ready(c, k) || s.queue == [] || s.flying then s
      else if throws then C.Settle(s, false)
      else if c.sends[k].acked then C.Transmit(s)
      else C.Settle(C.Transmit(s), true)
    case WriteEvent => if s.flying then C.Settle(s, true) else s
    case ErrorEvent => if s.flying then C.Settle(s, false) else s
    case TimedOut(k) => if s.flying && k in c.pairs then C.Settle(s, false) else s
  }

  /** The write that is out, if any, is the carrier's head. */
  lemma HeadIsOut(c: Chain, s: C.State)
    requires InOrder(c) && Refines(c, s)
    ensures if s.flying then |c.writes| == |s.settled| + 1 && c.pairs == {|s.settled|}
            else |c.writes| == |s.settled| && c.pairs == {}
  {
    var d, n := |s.settled|, |c.writes|;
    assert n > 0 ==> d >= n - 1;
    assert d > 0 ==> !c.sends[d - 1].status.Chained?;
  }

  /** Settling the head alone. */
  lemma HeadSettledRefines(c: Chain, s: C.State, c': Chain, ok: bool)
    requires Refines(c, s) && |s.settled| < |c.sends|
    requires c'.sends == c.sends[|s.settled| := c.sends[|s.settled|].(status := Done(ok))]
    requires c'.air == c.air
    requires forall j :: |s.settled| < j < |c.sends| ==> c.sends[j].status.Chained?
    ensures s.queue != [] && Refines(c', C.Settle(s, ok))
  {
    C.SettleAccounted(s, ok);
  }

  lemma HeadSentRefines(c: Chain, s: C.State, c': Chain)
    requires Refines(c, s) && |s.settled| < |c.sends| && !s.flying
    requires c'.sends == c.sends[|s.settled| := c.sends[|s.settled|].(status := Writing)]
    requires c'.air == c.air + [C.Item(|s.settled|, c.sends[|s.settled|].frame)]
    ensures s.queue != [] && Refines(c', C.Transmit(s))
  {
    C.TransmitAccounted(s);
    assert s.queue[0] == C.Item(|s.settled|, c.sends[|s.settled|].frame);
  }

  lemma SettleRefines(c: Chain, s: C.State, ok: bool)
    requires InOrder(c) && Refines(c, s) && s.flying
    ensures Refines(SettlePairs(c, ok), C.Settle(s, ok))
    ensures Refines(TimeOut(c, |s.settled|), C.Settle(s, false))
  {
    var d := |s.settled|;
    HeadIsOut(c, s);
    assert SettlePairs(c, ok).sends == c.sends[d := c.sends[d].(status := Done(ok))];
    HeadSettledRefines(c, s, SettlePairs(c, ok), ok);
    HeadSettledRefines(c, s, TimeOut(c, d), false);
  }

  lemma ProceedRefines(c: Chain, s: C.State, k: nat, throws: bool)
    requires InOrder(c) && Refines(c, s) && Ready(c, k)
    ensures Refines(WriteOnce(c, k, throws), Carry(c, s, Proceed(k, throws)))
  {
    ProceedInOrder(c, k, throws);
    HeadIsOut(c, s);
    var c' := WriteOnce(c, k, throws);
    if throws {
      HeadSettledRefines(c, s, c', false);
    } else if c.sends[k].acked {
      HeadSentRefines(c, s, c');
    } else {
      var mid := c.(sends := c.sends[k := c.sends[k].(status := Writing)], air := c'.air);
      HeadSentRefines(c, s, mid);
      HeadSettledRefines(mid, C.Transmit(s), c', true);
    }
  }

  lemma CompletionRefines(c: Chain, s: C.State, ok: bool)
    requires InOrder(c) && Refines(c, s)
    ensures Refines(SettlePairs(c, ok), if s.flying then C.Settle(s, ok) else s)
  {
    HeadIsOut(c, s);
    if s.flying {
      SettleRefines(c, s, ok);
    } else {
      assert SettlePairs(c, ok).sends == c.sends;
    }
  }

  lemma QueueRefines(c: Chain, s: C.State, frame: Packet, acked: bool)
    requires Refines(c, s)
    ensures Refines(Enqueue(c, frame, acked), C.Push(s, frame))
  {
    C.PushAccounted(s, frame);
  }

  /** Every chain event is a push, a transmission of the head, or a settlement of the head. */
  lemma StepRefines(c: Chain, s: C.State, e: Event)
    requires InOrder(c) && Refines(c, s)
    ensures Refines(Step(c, e), Carry(c, s, e))
  {
    match e
    case Queue(frame, acked) => QueueRefines(c, s, frame, acked);
    case Proceed(k, throws) => if Ready(c, k) { ProceedRefines(c, s, k, throws); }
    case WriteEvent => CompletionRefines(c, s, true);
    case ErrorEvent => CompletionRefines(c, s, false);
    case TimedOut(k) =>
      HeadIsOut(c, s);
      if s.flying { SettleRefines(c, s, false); }
  }

  // ─── the source's object ────────────────────────────────────────────────

  class Peripheral {
    var sends: seq<Send>
    var tail: Option<nat>
    var pairs: set<nat>
    ghost var writes: seq<nat>
    ghost var air: seq<C.Item>

    ghost function State(): Chain
      reads this
    {
      Chain(sends, tail, pairs, writes, air)
    }

    constructor ()
      ensures State() == IDLE
    {
      sends, tail, pairs, writes, air := [], None, {}, [], [];
    }

    method SendFrame(frame: Packet, acked: bool) returns (promise: nat)
      modifies this
      ensures State() == Step(old(State()), Queue(frame, acked)) && promise == |old(sends)|
    {
      promise := |sends|;
      sends := sends + [Send(frame, acked, tail, Chained)];
      tail := Some(promise);
    }

    method Continue(k: nat, throws: bool)
      requires InOrder(State()) && Ready(State(), k)
      modifies this
      ensures State() == Step(old(State()), Proceed(k, throws))
    {
      var s := sends[k];
      writes := writes + [k];
      if s.acked {
        pairs := pairs + {k};
        if throws {
          pairs := pairs - {k};
        }
      }
      var status := if throws then Done(false) else if s.acked then Writing else Done(true);
      sends := sends[k := s.(status := status)];
      air := if throws then air else air + [C.Item(k, s.frame)];
    }

    method OnCompletion(ok: bool)
      modifies this
      ensures State() == Step(old(State()), if ok then WriteEvent else ErrorEvent)
    {
      var i := 0;
      while i < |sends|
        invariant 0 <= i <= |sends| == |old(sends)|
        invariant unchanged(`tail) && unchanged(`writes) && unchanged(`air) && unchanged(`pairs)
        invariant forall k :: 0 <= k < |sends| ==>
          sends[k] == if k < i && k in pairs then old(sends)[k].(status := Done(ok)) else old(sends)[k]
      {
        if i in pairs {
          sends := sends[i := sends[i].(status := Done(ok))];
        }
        i := i + 1;
      }
      pairs := {};
      assert sends == SettlePairs(old(State()), ok).sends;
    }

    method OnTimeout(k: nat)
      requires k in pairs && k < |sends|
      modifies this
      ensures State() == Step(old(State()), TimedOut(k))
    {
      pairs := pairs - {k};
      sends := sends[k := sends[k].(status := Done(false))];
    }
  }
}
