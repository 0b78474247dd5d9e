/** One FIFO of frames behind a radio: what the notify queue and the write chain of
    lib/gatt.js have in common. Each frame is one promise; only the head is ever handed to
    the radio, and the head is settled before the next one is looked at. */
module Carrier {
  import opened Frames

  datatype Item = Item(n: nat, frame: Packet)
  datatype Outcome = Outcome(item: Item, ok: bool)

  /** `flying`: the radio holds the head already. `air`: every item the radio ever accepted.
      `sent` and `settled` are histories: frames in the order they were sent, promises in the
      order they were resolved (`ok`) or rejected. */
  datatype State = State(
    queue: seq<Item>,
    flying: bool,
    air: seq<Item>,
    sent: seq<Packet>,
    settled: seq<Outcome>)

  const EMPTY := State([], false, [], [], [])

  function Push(c: State, frame: Packet): State {
    c.(queue := c.queue + [Item(|c.sent|, frame)], sent := c.sent + [frame])
  }

  function Transmit(c: State): State
    requires c.queue != [] && !c.flying
  {
    c.(flying := true, air := c.air + [c.queue[0]])
  }

  function Settle(c: State, ok: bool): State
    requires c.queue != []
  {
    c.(queue := c.queue[1..], flying := false, settled := c.settled + [Outcome(c.queue[0], ok)])
  }

  /** The item has left the queue's waiting part: given to the radio, or given up. */
  predicate Handled(c: State, n: nat) {
    n < |c.settled| || (n == |c.settled| && c.flying)
  }

  /** Every frame sent so far is, in order, one settled promise or one queued item, and the radio
      accepted items in that order too. */
  ghost predicate Accounted(c: State) {
    && |c.sent| == |c.settled| + |c.queue|
    && (forall i :: 0 <= i < |c.settled| ==> c.settled[i].item == Item(i, c.sent[i]))
    && (forall i :: 0 <= i < |c.queue| ==> c.queue[i] == Item(|c.settled| + i, c.sent[|c.settled| + i]))
    && (c.flying ==> c.queue != [])
    && (forall i :: 0 <= i < |c.air| ==> Handled(c, c.air[i].n) && c.air[i].n < |c.sent| && c.air[i].frame == c.sent[c.air[i].n])
    && (forall i, j :: 0 <= i < j < |c.air| ==> c.air[i].n < c.air[j].n)
    && (c.flying ==> c.air != [] && c.air[|c.air| - 1].n == |c.settled|)
  }

  /** The items whose promises were resolved. */
  function Resolved(settled: seq<Outcome>): seq<Item> {
    if settled == [] then []
    else
      var last := settled[|settled| - 1];
      Resolved(settled[..|settled| - 1]) + if last.ok then [last.item] else []
  }

  lemma PushAccounted(c: State, frame: Packet)
    requires Accounted(c)
    ensures Accounted(Push(c, frame))
  {}

  lemma TransmitAccounted(c: State)
    requires Accounted(c) && c.queue != [] && !c.flying
    ensures Accounted(Transmit(c))
  {}

  lemma SettleAccounted(c: State, ok: bool)
    requires Accounted(c) && c.queue != []
    ensures Accounted(Settle(c, ok))
  {}
}
