/** lib/gatt.js, peripheral side: the one notify queue every session shares. */
module Gatt {
  import opened Frames
  import C = Carrier

  /** What updateValue does with a frame. */
  datatype Answer = Accepted | Full | Throws

  /** `retry`: the NOTIFY_RETRY timer is armed. `offers`: history of the items handed to
      updateValue, by number. */
  datatype Queue = Queue(carrier: C.State, retry: bool, offers: seq<nat>)

  const IDLE := Queue(C.EMPTY, false, [])

  function Notify(q: Queue, frame: Packet, answers: seq<Answer>): Queue {
    Drain(q.(carrier := C.Push(q.carrier, frame)), answers)
  }

  /** `answers` are the radio's answers to the successive updateValue calls of this drain; a
      radio that has no more to say is full. */
  function Drain(q: Queue, answers: seq<Answer>): Queue
    decreases |q.carrier.queue|
  {
    if q.carrier.queue == [] then q.(retry := false)
    else
      var o := q.(offers := q.offers + [q.carrier.queue[0].n]);
      if answers == [] || answers[0].Full? then o.(retry := true)
      else Drain(o.(carrier := Handle(q.carrier, answers[0])), answers[1..])
  }

  function Handle(c: C.State, answer: Answer): (r: C.State)
    requires c.queue != [] && !answer.Full?
    ensures |r.queue| < |c.queue|
  {
    if answer.Throws? then C.Settle(c, false)
    else C.Settle(if c.flying then c else C.Transmit(c), true)
  }

  function Reset(q: Queue): Queue {
    Queue(RejectAll(q.carrier), false, q.offers)
  }

  function RejectAll(c: C.State): (r: C.State)
    ensures r.queue == [] && r.air == c.air
    decreases |c.queue|
  {
    if c.queue == [] then c.(flying := false) else RejectAll(C.Settle(c, false))
  }

  datatype Event =
    | Send(frame: Packet, answers: seq<Answer>)
    | ReadyToUpdate(answers: seq<Answer>)
    | RetryFires(answers: seq<Answer>)
    | ResetAll

  function Step(q: Queue, e: Event): Queue {
    match e
    case Send(frame, answers) => Notify(q, frame, answers)
    case ReadyToUpdate(answers) => Drain(q, answers)
    case RetryFires(answers) => if q.retry then Drain(q.(retry := false), answers) else q
    case ResetAll => Reset(q)
  }

  function Run(events: seq<Event>): Queue {
    if events == [] then IDLE else Step(Run(events[..|events| - 1]), events[|events| - 1])
  }

  /** Between events: every promise is accounted for once and in order, the radio accepted the
      resolved frames and no others, items are offered in the order they were notified, and a
      frame is held back only under an armed retry timer. */
  ghost predicate Settled(q: Queue) {
    && Flowing(q)
    && (q.carrier.queue != [] <==> q.retry)
  }

  ghost predicate Flowing(q: Queue) {
    && C.Accounted(q.carrier)
    && !q.carrier.flying
    && q.carrier.air == C.Resolved(q.carrier.settled)
    && (forall i, j :: 0 <= i < j < |q.offers| ==> q.offers[i] <= q.offers[j])
    && (forall i :: 0 <= i < |q.offers| ==> q.offers[i] <= |q.carrier.settled| && q.offers[i] < |q.carrier.sent|)
  }

  lemma HandleFlows(q: Queue, answer: Answer)
    requires Flowing(q) && q.carrier.queue != [] && !answer.Full?
    ensures Flowing(q.(offers := q.offers + [q.carrier.queue[0].n], carrier := Handle(q.carrier, answer)))
  {
    var c := q.carrier;
    var ok := answer.Accepted?;
    var mid := if ok then C.Transmit(c) else c;
    C.SettleAccounted(mid, ok);
    assert C.Settle(mid, ok).settled[..|c.settled|] == c.settled;
  }

  /** A drain ends settled: either the queue ran dry or the head waits for the retry timer. */
  lemma {:induction false} DrainSettles(q: Queue, answers: seq<Answer>)
    requires Flowing(q)
    ensures Settled(Drain(q, answers))
    decreases |q.carrier.queue|
  {
    if q.carrier.queue != [] && answers != [] && !answers[0].Full? {
      HandleFlows(q, answers[0]);
      DrainSettles(q.(offers := q.offers + [q.carrier.queue[0].n], carrier := Handle(q.carrier, answers[0])), answers[1..]);
    }
  }

  lemma {:induction false} RejectAllFlows(c: C.State)
    requires C.Accounted(c) && !c.flying && c.air == C.Resolved(c.settled)
    ensures var r := RejectAll(c);
            && C.Accounted(r) && !r.flying && r.air == C.Resolved(r.settled)
            && r.sent == c.sent && |r.settled| >= |c.settled|
    decreases |c.queue|
  {
    if c.queue != [] {
      C.SettleAccounted(c, false);
      assert C.Settle(c, false).settled[..|c.settled|] == c.settled;
      RejectAllFlows(C.Settle(c, false));
    }
  }

  lemma StepSettles(q: Queue, e: Event)
    requires Settled(q)
    ensures Settled(Step(q, e))
  {
    match e
    case Send(frame, answers) =>
      C.PushAccounted(q.carrier, frame);
      DrainSettles(q.(carrier := C.Push(q.carrier, frame)), answers);
    case ReadyToUpdate(answers) => DrainSettles(q, answers);
    case RetryFires(answers) => DrainSettles(q.(retry := false), answers);
    case ResetAll => RejectAllFlows(q.carrier);
  }

  /** In every run of notifications, radio answers, retries and resets. */
  lemma {:induction false} RunSettles(events: seq<Event>)
    ensures Settled(Run(events))
  {
    if events != [] {
      RunSettles(events[..|events| - 1]);
      StepSettles(Run(events[..|events| - 1]), events[|events| - 1]);
    }
  }

  /** A missed readyToUpdate cannot stall the queue: while frames wait, the retry timer is armed,
      and its drain against a radio with room empties the queue, resolving all of them in order. */
  lemma {:induction false} RoomEmptiesQueue(q: Queue)
    requires !q.carrier.flying
    ensures var d := Drain(q, Room(|q.carrier.queue|));
            && d.carrier.queue == [] && !d.retry
            && d.carrier.air == q.carrier.air + q.carrier.queue
            && d.carrier.settled == q.carrier.settled + AllOk(q.carrier.queue)
    decreases |q.carrier.queue|
  {
    var queue := q.carrier.queue;
    if queue != [] {
      var next := AcceptHead(q);
      RoomEmptiesQueue(next);
      var done := C.Outcome(queue[0], true);
      Regroup(q.carrier.air, queue[0], queue[1..]);
      Regroup(q.carrier.settled, done, AllOk(queue[1..]));
      assert queue == [queue[0]] + queue[1..];
    }
  }

  lemma Regroup<T>(a: seq<T>, x: T, b: seq<T>)
    ensures a + [x] + b == a + ([x] + b)
  {}

  lemma AcceptHead(q: Queue) returns (next: Queue)
    requires !q.carrier.flying && q.carrier.queue != []
    ensures !next.carrier.flying && next.carrier.queue == q.carrier.queue[1..]
    ensures next.carrier.air == q.carrier.air + [q.carrier.queue[0]]
    ensures next.carrier.settled == q.carrier.settled + [C.Outcome(q.carrier.queue[0], true)]
    ensures Drain(q, Room(|q.carrier.queue|)) == Drain(next, Room(|next.carrier.queue|))
  {
    next := q.(offers := q.offers + [q.carrier.queue[0].n], carrier := Handle(q.carrier, Accepted));
    assert Room(|q.carrier.queue|)[1..] == Room(|next.carrier.queue|);
  }

  /** A radio with room for `n` more frames. */
  function Room(n: nat): seq<Answer> {
    if n == 0 then [] else [Accepted] + Room(n - 1)
  }

  function AllOk(items: seq<C.Item>): seq<C.Outcome> {
    if items == [] then [] else [C.Outcome(items[0], true)] + AllOk(items[1..])
  }

  // ─── what one drain does ────────────────────────────────────────────────

  /** How many of `n` waiting items are handled before the radio is full. */
  function Handles(n: nat, answers: seq<Answer>): (k: nat)
    ensures k <= n && k <= |answers|
    ensures forall i | 0 <= i < k :: !answers[i].Full?
    ensures k < n ==> k == |answers| || answers[k].Full?
  {
    if n == 0 || answers == [] || answers[0].Full? then 0 else 1 + Handles(n - 1, answers[1..])
  }

  /** The items whose own answer was a yes. */
  function Yes(items: seq<C.Item>, answers: seq<Answer>): seq<C.Item>
    requires |items| <= |answers|
  {
    if items == [] then []
    else Given(items[0], answers[0]) + Yes(items[1..], answers[1..])
  }

  function Given(item: C.Item, answer: Answer): seq<C.Item> {
    if answer.Accepted? then [item] else []
  }

  /** Each by its own answer. */
  function Outcomes(items: seq<C.Item>, answers: seq<Answer>): (o: seq<C.Outcome>)
    requires |items| <= |answers|
    ensures |o| == |items|
    ensures forall i | 0 <= i < |o| :: o[i] == C.Outcome(items[i], answers[i].Accepted?)
  {
    if items == [] then [] else [C.Outcome(items[0], answers[0].Accepted?)] + Outcomes(items[1..], answers[1..])
  }

  /** The items whose frames updateValue was asked to take. */
  function Numbers(items: seq<C.Item>): seq<nat> {
    if items == [] then [] else [items[0].n] + Numbers(items[1..])
  }

  /** `k` waiting items settled each by its own answer, and only they: the radio got the accepted
      ones in order, and the rest waits in order, under an armed retry timer if there is a rest. */
  ghost predicate DrainedBy(q: Queue, d: Queue, k: nat, answers: seq<Answer>) {
    var c := q.carrier;
    && k <= |c.queue| && k <= |answers|
    && d.carrier.settled == c.settled + Outcomes(c.queue[..k], answers)
    && d.carrier.air == c.air + Yes(c.queue[..k], answers)
    && d.carrier.queue == c.queue[k..] && !d.carrier.flying && d.carrier.sent == c.sent
    && (d.retry <==> k < |c.queue|)
    && d.offers == q.offers + Numbers(c.queue[..if k < |c.queue| then k + 1 else k])
  }

  /** Main: a drain handles the items in front of the first full answer and no other; a throw rejects
      its own item alone. */
  lemma {:induction false} DrainOutcomes(q: Queue, answers: seq<Answer>)
    requires !q.carrier.flying
    ensures DrainedBy(q, Drain(q, answers), Handles(|q.carrier.queue|, answers), answers)
    decreases |q.carrier.queue|
  {
    var c := q.carrier;
    if c.queue != [] {
      if answers == [] || answers[0].Full? {
        assert c.queue[..1][1..] == [];
      } else {
        var next := HeadHandled(q, answers);
        DrainOutcomes(next, answers[1..]);
        Prepend(q, next, Drain(next, answers[1..]), Handles(|next.carrier.queue|, answers[1..]), answers);
      }
    }
  }

  lemma HeadHandled(q: Queue, answers: seq<Answer>) returns (next: Queue)
    requires !q.carrier.flying && q.carrier.queue != [] && answers != [] && !answers[0].Full?
    ensures HeadOff(q, next, answers[0]) && Drain(q, answers) == Drain(next, answers[1..])
  {
    next := q.(offers := q.offers + [q.carrier.queue[0].n], carrier := Handle(q.carrier, answers[0]));
  }

  predicate HeadOff(q: Queue, next: Queue, answer: Answer)
    requires q.carrier.queue != []
  {
    var c, head := q.carrier, q.carrier.queue[0];
    && next.carrier.queue == c.queue[1..] && !next.carrier.flying && next.carrier.sent == c.sent
    && next.carrier.settled == c.settled + [C.Outcome(head, answer.Accepted?)]
    && next.carrier.air == c.air + Given(head, answer) && next.offers == q.offers + [head.n]
  }

  lemma Prepend(q: Queue, next: Queue, d: Queue, k: nat, answers: seq<Answer>)
    requires q.carrier.queue != [] && answers != [] && HeadOff(q, next, answers[0]) && DrainedBy(next, d, k, answers[1..])
    ensures DrainedBy(q, d, k + 1, answers)
  {
    var c := q.carrier;
    Front(c.queue, k + 1);
    OutcomesFront(c.settled, c.queue, k + 1, answers);
    YesFront(c.air, c.queue, k + 1, answers);
    NumbersFront(q.offers, c.queue, if k + 1 < |c.queue| then k + 2 else k + 1);
  }

  lemma OutcomesFront(settled: seq<C.Outcome>, items: seq<C.Item>, k: nat, answers: seq<Answer>)
    requires 0 < k <= |items| && k <= |answers|
    ensures settled + [C.Outcome(items[0], answers[0].Accepted?)] + Outcomes(items[1..][..k - 1], answers[1..])
         == settled + Outcomes(items[..k], answers)
  {
    Front(items, k);
    Regroup(settled, C.Outcome(items[0], answers[0].Accepted?), Outcomes(items[1..][..k - 1], answers[1..]));
  }

  lemma YesFront(air: seq<C.Item>, items: seq<C.Item>, k: nat, answers: seq<Answer>)
    requires 0 < k <= |items| && k <= |answers|
    ensures air + Given(items[0], answers[0]) + Yes(items[1..][..k - 1], answers[1..]) == air + Yes(items[..k], answers)
  {
    Front(items, k);
    Associate(air, Given(items[0], answers[0]), Yes(items[1..][..k - 1], answers[1..]));
  }

  lemma Associate<T>(a: seq<T>, b: seq<T>, c: seq<T>)
    ensures a + b + c == a + (b + c)
  {}

  lemma NumbersFront(offers: seq<nat>, items: seq<C.Item>, k: nat)
    requires 0 < k <= |items|
    ensures offers + [items[0].n] + Numbers(items[1..][..k - 1]) == offers + Numbers(items[..k])
  {
    Front(items, k);
    Regroup(offers, items[0].n, Numbers(items[1..][..k - 1]));
  }

  lemma Front<T>(items: seq<T>, k: nat)
    requires 0 < k <= |items|
    ensures items[..k][0] == items[0] && items[..k][1..] == items[1..][..k - 1] && items[k..] == items[1..][k - 1..]
  {}

  lemma {:induction false} RejectsEach(c: C.State)
    requires !c.flying
    ensures RejectAll(c).settled == c.settled + AllRejected(c.queue) && RejectAll(c).sent == c.sent && !RejectAll(c).flying
    decreases |c.queue|
  {
    if c.queue != [] {
      RejectsEach(C.Settle(c, false));
      Regroup(c.settled, C.Outcome(c.queue[0], false), AllRejected(c.queue[1..]));
    }
  }

  function AllRejected(items: seq<C.Item>): seq<C.Outcome> {
    if items == [] then [] else [C.Outcome(items[0], false)] + AllRejected(items[1..])
  }

  /** A reset rejects every waiting item once, in order, gives the radio nothing and disarms. */
  lemma ResetRejects(q: Queue)
    requires !q.carrier.flying
    ensures var r := Step(q, ResetAll);
            && r.carrier.queue == [] && !r.retry && r.carrier.air == q.carrier.air && r.offers == q.offers
            && r.carrier.settled == q.carrier.settled + AllRejected(q.carrier.queue) && r.carrier.sent == q.carrier.sent
  {
    RejectsEach(q.carrier);
  }

  /** A notify puts its frame behind what waits, and drains all of it. */
  lemma SendJoins(q: Queue, frame: Packet, answers: seq<Answer>)
    requires !q.carrier.flying
    ensures var pushed := q.(carrier := q.carrier.(queue := q.carrier.queue + [C.Item(|q.carrier.sent|, frame)],
                                                   sent := q.carrier.sent + [frame]));
            DrainedBy(pushed, Step(q, Send(frame, answers)), Handles(|pushed.carrier.queue|, answers), answers)
  {
    DrainOutcomes(q.(carrier := C.Push(q.carrier, frame)), answers);
  }

  /** readyToUpdate and the retry timer both drain; a timer that is not armed does nothing. */
  lemma EventsDrain(q: Queue, answers: seq<Answer>)
    ensures Step(q, ReadyToUpdate(answers)) == Drain(q, answers)
    ensures Step(q, RetryFires(answers)) == if q.retry then Drain(q, answers) else q
  {
    DrainIgnoresRetry(q, answers);
  }

  /** Draining only adds to the histories: no promise is settled twice or unsettled. */
  lemma {:induction false} DrainKeepsSettled(q: Queue, answers: seq<Answer>)
    ensures q.carrier.settled <= Drain(q, answers).carrier.settled
    ensures q.carrier.air <= Drain(q, answers).carrier.air
    ensures q.carrier.sent == Drain(q, answers).carrier.sent
    decreases |q.carrier.queue|
  {
    if q.carrier.queue != [] && answers != [] && !answers[0].Full? {
      DrainKeepsSettled(q.(offers := q.offers + [q.carrier.queue[0].n], carrier := Handle(q.carrier, answers[0])), answers[1..]);
    }
  }

  /** The queue as the source keeps it: an array of waiting items and a retry handle. */
  class NotifyQueue {
    var queue: seq<C.Item>
    var retry: bool
    ghost var air: seq<C.Item>
    ghost var sent: seq<Packet>
    ghost var settled: seq<C.Outcome>
    ghost var offers: seq<nat>
    var count: nat

    ghost predicate Valid()
      reads this
    {
      count == |sent|
    }

    ghost function State(): Queue
      reads this
    {
      Queue(C.State(queue, false, air, sent, settled), retry, offers)
    }

    constructor ()
      ensures Valid() && State() == IDLE
    {
      queue, retry, count := [], false, 0;
      air, sent, settled, offers := [], [], [], [];
    }

    method SendFrame(frame: Packet, answers: seq<Answer>)
      requires Valid()
      modifies this
      ensures Valid() && State() == Notify(old(State()), frame, answers)
    {
      queue := queue + [C.Item(count, frame)];
      count, sent := count + 1, sent + [frame];
      DrainQueue(answers);
    }

    method DrainQueue(answers: seq<Answer>)
      requires Valid()
      modifies this
      ensures Valid() && State() == Drain(old(State()), answers)
    {
      retry := false;
      ghost var goal := Drain(State(), answers);
      assert goal == Drain(old(State()), answers) by { DrainIgnoresRetry(old(State()), answers); }
      var i := 0;
      while queue != []
        invariant Valid() && i <= |answers| && !retry
        invariant Drain(State(), answers[i..]) == goal
        decreases |queue|
      {
        var item := queue[0];
        offers := offers + [item.n];
        if i == |answers| || answers[i].Full? {
          retry := true;
          return;
        }
        queue := queue[1..];
        settled := settled + [C.Outcome(item, answers[i].Accepted?)];
        air := if answers[i].Accepted? then air + [item] else air;
        i := i + 1;
      }
    }

    method ResetQueue()
      requires Valid()
      modifies this
      ensures Valid() && State() == Reset(old(State()))
    {
      retry := false;
      ghost var goal := RejectAll(State().carrier);
      var i := 0;
      ghost var all := queue;
      while i < |queue|
        invariant Valid() && i <= |queue| && queue == all && !retry && offers == old(offers)
        invariant RejectAll(C.State(all[i..], false, air, sent, settled)) == goal
      {
        settled := settled + [C.Outcome(queue[i], false)];
        i := i + 1;
      }
      queue := [];
    }
  }

  lemma DrainIgnoresRetry(q: Queue, answers: seq<Answer>)
    ensures Drain(q, answers) == Drain(q.(retry := false), answers)
    decreases |q.carrier.queue|
  {}
}
