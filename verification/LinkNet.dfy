/** Link agreement between nodes without a coordinator: every pair may link twice, once in each
    direction, opens and closes arrive in any order, and both ends settle on the same channel. */
module LinkNet {
  import opened Options
  import opened Bytes
  import L = Links

  /** `failed`: the radio lost it, so both ends will see it close. */
  datatype Channel = Channel(from: nat, to: nat, failed: bool)

  datatype Net = Net(nodes: seq<L.Node>, chans: map<nat, Channel>)

  /** OpenAt: the handshake completes at one end. CloseAt: one end learns that the channel closed.
      PowerLost and Parked: a node destroys its links when its radio goes down or it suspends. */
  datatype Event =
    | Connect(chan: nat, from: nat, to: nat)
    | OpenAt(chan: nat, end: nat)
    | CloseAt(chan: nat, end: nat)
    | Fail(chan: nat)
    | PowerLost(end: nat)
    | Parked(end: nat)

  predicate IsEnd(s: Net, chan: nat, end: nat) {
    chan in s.chans && end < |s.nodes| && (end == s.chans[chan].from || end == s.chans[chan].to)
    && chan in s.nodes[end].conns
  }

  function Other(ch: Channel, end: nat): nat {
    if end == ch.from then ch.to else ch.from
  }

  function ConnAt(s: Net, chan: nat, end: nat): L.Conn
    requires IsEnd(s, chan, end)
  {
    s.nodes[end].conns[chan]
  }

  /** Some end dropped it: a close is on its way, or has arrived, at both. */
  predicate Doomed(s: Net, chan: nat) {
    chan in s.chans && (s.chans[chan].failed || Dropped(s, chan, s.chans[chan].from) || Dropped(s, chan, s.chans[chan].to))
  }

  predicate Dropped(s: Net, chan: nat, end: nat) {
    IsEnd(s, chan, end) && ConnAt(s, chan, end).destroyed
  }

  predicate ClosedAt(s: Net, chan: nat, end: nat) {
    IsEnd(s, chan, end) && ConnAt(s, chan, end).closed
  }

  /** Both ends have seen it close. */
  predicate Gone(s: Net, chan: nat) {
    chan in s.chans && ClosedAt(s, chan, s.chans[chan].from) && ClosedAt(s, chan, s.chans[chan].to)
  }

  predicate Enabled(s: Net, e: Event) {
    match e
    case Connect(chan, from, to) =>
      && chan !in s.chans && from < |s.nodes| && to < |s.nodes| && from != to
      // one channel per direction: the former one is gone
      && forall c | c in s.chans && s.chans[c].from == from && s.chans[c].to == to :: Gone(s, c)
    case OpenAt(chan, end) => IsEnd(s, chan, end) && L.Enabled(s.nodes[end], L.Open(chan))
    case CloseAt(chan, end) => IsEnd(s, chan, end) && Doomed(s, chan) && !ConnAt(s, chan, end).closed
    case Fail(chan) => chan in s.chans
    case PowerLost(end) => end < |s.nodes|
    case Parked(end) => end < |s.nodes|
  }

  function At(s: Net, end: nat, e: L.Event): Net
    requires end < |s.nodes|
  {
    s.(nodes := s.nodes[end := L.Step(s.nodes[end], e)])
  }

  function Apply(s: Net, e: Event): Net
    requires Enabled(s, e)
  {
    match e
    case Connect(chan, from, to) => Linked(s, chan, from, to)
    case OpenAt(chan, end) => At(s, end, L.Open(chan))
    case CloseAt(chan, end) => At(s, end, L.Close(chan))
    case Fail(chan) => s.(chans := s.chans[chan := s.chans[chan].(failed := true)])
    case PowerLost(end) => At(s, end, L.DestroyPeers)
    case Parked(end) => At(s, end, L.ClearPeers)
  }

  function Linked(s: Net, chan: nat, from: nat, to: nat): Net
    requires from < |s.nodes| && to < |s.nodes|
  {
    Net(s.nodes[from := Joined(s, chan, from, to, true)][to := Joined(s, chan, to, from, false)],
        s.chans[chan := Channel(from, to, false)])
  }

  /** The node at one end, with its connection to the other. */
  function Joined(s: Net, chan: nat, end: nat, other: nat, initiator: bool): L.Node
    requires end < |s.nodes| && other < |s.nodes|
  {
    L.Step(s.nodes[end], L.Create(chan, s.nodes[other].own, initiator))
  }

  function Step(s: Net, e: Event): Net {
    if Enabled(s, e) then Apply(s, e) else s
  }

  function Init(keys: seq<Key>): Net {
    Net(seq(|keys|, i requires 0 <= i < |keys| => L.Node(keys[i], map[], map[], false)), map[])
  }

  function Run(keys: seq<Key>, events: seq<Event>): Net {
    if events == [] then Init(keys) else Step(Run(keys, events[..|events| - 1]), events[|events| - 1])
  }

  // ─── the invariant ──────────────────────────────────────────────────────

  ghost predicate DistinctKeys(keys: seq<Key>) {
    forall i, j | 0 <= i < j < |keys| :: keys[i] != keys[j]
  }

  /** A channel has a connection at each end, naming the other end's key. */
  predicate ChanOk(keys: seq<Key>, s: Net, chan: nat)
    requires chan in s.chans && |s.nodes| == |keys|
  {
    var ch := s.chans[chan];
    && ch.from != ch.to && IsEnd(s, chan, ch.from) && IsEnd(s, chan, ch.to)
    && ConnAt(s, chan, ch.from).initiator && !ConnAt(s, chan, ch.to).initiator
    && ConnAt(s, chan, ch.from).remote == keys[ch.to] && ConnAt(s, chan, ch.to).remote == keys[ch.from]
  }

  /** A node keeps its key, and every connection it knows is an end of a channel. */
  ghost predicate NodeOk(keys: seq<Key>, s: Net, end: nat)
    requires end < |s.nodes| == |keys|
  {
    && L.Inv(s.nodes[end]) && s.nodes[end].own == keys[end] && !s.nodes[end].closing
    && forall c | c in s.nodes[end].conns :: IsEnd(s, c, end)
  }

  /** Of two channels in one direction, one is gone. */
  predicate OneWay(s: Net, a: nat, b: nat)
    requires a in s.chans && b in s.chans
  {
    a != b && s.chans[a].from == s.chans[b].from && s.chans[a].to == s.chans[b].to ==> Gone(s, a) || Gone(s, b)
  }

  ghost predicate Inv(keys: seq<Key>, s: Net) {
    && DistinctKeys(keys) && |s.nodes| == |keys|
    && (forall end: nat | end < |keys| :: NodeOk(keys, s, end))
    && (forall c | c in s.chans :: ChanOk(keys, s, c))
    && (forall a, b | a in s.chans && b in s.chans :: OneWay(s, a, b))
  }

  /** A step at one node that neither adds connections nor reopens closed ones. */
  ghost predicate Local(n: L.Node, m: L.Node) {
    && m.own == n.own && m.closing == n.closing && m.conns.Keys == n.conns.Keys
    && forall c | c in n.conns :: SameConn(n.conns[c], m.conns[c])
  }

  predicate SameConn(c: L.Conn, d: L.Conn) {
    d.remote == c.remote && d.initiator == c.initiator && (c.closed ==> d.closed)
  }

  lemma LocalStep(n: L.Node, e: L.Event)
    requires !e.Create? && !e.CloseBegins?
    ensures Local(n, L.Step(n, e))
  {
    if e.Open? && L.Enabled(n, e) {
      LocalOpen(n, e.conn);
    }
  }

  lemma LocalOpen(n: L.Node, conn: nat)
    requires conn in n.conns
    ensures Local(n, L.OnOpen(n, conn))
  {}

  lemma AtChan(keys: seq<Key>, s: Net, end: nat, e: L.Event, chan: nat)
    requires Inv(keys, s) && end < |s.nodes| && chan in s.chans && Local(s.nodes[end], L.Step(s.nodes[end], e))
    ensures ChanOk(keys, At(s, end, e), chan) && (Gone(s, chan) ==> Gone(At(s, end, e), chan))
  {
    assert ChanOk(keys, s, chan);
  }

  lemma AtInv(keys: seq<Key>, s: Net, end: nat, e: L.Event)
    requires Inv(keys, s) && end < |s.nodes| && !e.Create? && !e.CloseBegins?
    ensures Inv(keys, At(s, end, e))
  {
    var r := At(s, end, e);
    LocalStep(s.nodes[end], e);
    forall x: nat | x < |keys|
      ensures NodeOk(keys, r, x)
    {
      assert NodeOk(keys, s, x);
      if x == end {
        L.StepInv(s.nodes[end], e);
      }
    }
    forall c | c in r.chans
      ensures ChanOk(keys, r, c)
    {
      AtChan(keys, s, end, e, c);
    }
    forall a, b | a in r.chans && b in r.chans
      ensures OneWay(r, a, b)
    {
      assert OneWay(s, a, b);
      AtChan(keys, s, end, e, a);
      AtChan(keys, s, end, e, b);
    }
  }

  lemma FailChan(keys: seq<Key>, s: Net, chan: nat, c: nat)
    requires Inv(keys, s) && chan in s.chans && c in s.chans
    ensures ChanOk(keys, Apply(s, Fail(chan)), c) && (Gone(s, c) ==> Gone(Apply(s, Fail(chan)), c))
    ensures var ch := Apply(s, Fail(chan)).chans[c]; ch.from == s.chans[c].from && ch.to == s.chans[c].to
  {
    assert ChanOk(keys, s, c);
  }

  lemma FailNode(keys: seq<Key>, s: Net, chan: nat, x: nat)
    requires Inv(keys, s) && chan in s.chans && x < |keys|
    ensures NodeOk(keys, Apply(s, Fail(chan)), x)
  {
    assert NodeOk(keys, s, x);
  }

  lemma FailInv(keys: seq<Key>, s: Net, chan: nat)
    requires Inv(keys, s) && chan in s.chans
    ensures Inv(keys, Apply(s, Fail(chan)))
  {
    var r := Apply(s, Fail(chan));
    forall x: nat | x < |keys|
      ensures NodeOk(keys, r, x)
    {
      FailNode(keys, s, chan, x);
    }
    forall c | c in r.chans
      ensures ChanOk(keys, r, c)
    {
      FailChan(keys, s, chan, c);
    }
    forall a, b | a in r.chans && b in r.chans
      ensures OneWay(r, a, b)
    {
      FailOneWay(keys, s, chan, a, b);
    }
  }

  lemma FailOneWay(keys: seq<Key>, s: Net, chan: nat, a: nat, b: nat)
    requires Inv(keys, s) && chan in s.chans && a in s.chans && b in s.chans
    ensures OneWay(Apply(s, Fail(chan)), a, b)
  {
    assert OneWay(s, a, b);
    FailChan(keys, s, chan, a);
    FailChan(keys, s, chan, b);
  }

  predicate Fresh(keys: seq<Key>, s: Net, chan: nat, from: nat, to: nat) {
    chan !in s.chans && from < |keys| == |s.nodes| && to < |keys| && from != to
  }

  lemma JoinedNode(keys: seq<Key>, s: Net, chan: nat, end: nat, other: nat, initiator: bool)
    requires Inv(keys, s) && chan !in s.chans && end < |keys| && other < |keys|
    ensures var n, m := s.nodes[end], Joined(s, chan, end, other, initiator);
            && L.Inv(m) && m.own == keys[end] && !m.closing && chan !in n.conns
            && m.conns == n.conns[chan := L.Conn(keys[other], initiator, false, false, false, false, None)]
  {
    assert NodeOk(keys, s, end) && NodeOk(keys, s, other);
    L.StepInv(s.nodes[end], L.Create(chan, s.nodes[other].own, initiator));
  }

  /** One end of the new channel. */
  lemma LinkedEnd(keys: seq<Key>, s: Net, r: Net, chan: nat, end: nat, other: nat, initiator: bool)
    requires Inv(keys, s) && Fresh(keys, s, chan, end, other) && |r.nodes| == |keys|
    requires r.nodes[end] == Joined(s, chan, end, other, initiator)
    requires r.chans == s.chans[chan := if initiator then Channel(end, other, false) else Channel(other, end, false)]
    ensures NodeOk(keys, r, end)
  {
    assert NodeOk(keys, s, end);
    JoinedNode(keys, s, chan, end, other, initiator);
  }

  lemma LinkedNode(keys: seq<Key>, s: Net, chan: nat, from: nat, to: nat, x: nat)
    requires Inv(keys, s) && Fresh(keys, s, chan, from, to) && x < |keys|
    ensures NodeOk(keys, Linked(s, chan, from, to), x)
  {
    var r := Linked(s, chan, from, to);
    if x == from {
      LinkedEnd(keys, s, r, chan, from, to, true);
    } else if x == to {
      LinkedEnd(keys, s, r, chan, to, from, false);
    } else {
      assert NodeOk(keys, s, x);
    }
  }

  lemma Known(keys: seq<Key>, s: Net, x: nat, c: nat)
    requires Inv(keys, s) && x < |keys| && c in s.nodes[x].conns
    ensures IsEnd(s, c, x)
  {
    assert NodeOk(keys, s, x);
  }

  lemma JoinedConn(s: Net, chan: nat, end: nat, other: nat, initiator: bool, c: nat)
    requires end < |s.nodes| && other < |s.nodes| && c in s.nodes[end].conns && c != chan
    ensures var m := Joined(s, chan, end, other, initiator); c in m.conns && m.conns[c] == s.nodes[end].conns[c]
  {}

  /** The connections there were are untouched. */
  lemma LinkedConn(keys: seq<Key>, s: Net, chan: nat, from: nat, to: nat, x: nat, c: nat)
    requires Inv(keys, s) && Fresh(keys, s, chan, from, to) && x < |keys| && c in s.nodes[x].conns
    ensures c in s.chans && c != chan
    ensures var r := Linked(s, chan, from, to); c in r.nodes[x].conns && r.nodes[x].conns[c] == s.nodes[x].conns[c]
  {
    Known(keys, s, x, c);
    JoinedConn(s, chan, x, from, false, c);
    JoinedConn(s, chan, x, to, true, c);
  }

  lemma LinkedChan(keys: seq<Key>, s: Net, chan: nat, from: nat, to: nat, c: nat)
    requires Inv(keys, s) && Enabled(s, Connect(chan, from, to)) && c in s.chans
    ensures ChanOk(keys, Linked(s, chan, from, to), c) && (Gone(s, c) ==> Gone(Linked(s, chan, from, to), c))
  {
    assert ChanOk(keys, s, c);
    LinkedConn(keys, s, chan, from, to, s.chans[c].from, c);
    LinkedConn(keys, s, chan, from, to, s.chans[c].to, c);
  }

  lemma NewChan(keys: seq<Key>, s: Net, chan: nat, from: nat, to: nat)
    requires Inv(keys, s) && Enabled(s, Connect(chan, from, to))
    ensures ChanOk(keys, Linked(s, chan, from, to), chan)
  {
    JoinedNode(keys, s, chan, from, to, true);
    JoinedNode(keys, s, chan, to, from, false);
  }

  lemma LinkedInv(keys: seq<Key>, s: Net, chan: nat, from: nat, to: nat)
    requires Inv(keys, s) && Enabled(s, Connect(chan, from, to))
    ensures Inv(keys, Linked(s, chan, from, to))
  {
    var r := Linked(s, chan, from, to);
    forall x: nat | x < |keys|
      ensures NodeOk(keys, r, x)
    {
      LinkedNode(keys, s, chan, from, to, x);
    }
    forall c | c in r.chans
      ensures ChanOk(keys, r, c)
    {
      if c == chan {
        NewChan(keys, s, chan, from, to);
      } else {
        LinkedChan(keys, s, chan, from, to, c);
      }
    }
    forall a, b | a in r.chans && b in r.chans
      ensures OneWay(r, a, b)
    {
      LinkedOneWay(keys, s, chan, from, to, a, b);
    }
  }

  lemma LinkedOneWay(keys: seq<Key>, s: Net, chan: nat, from: nat, to: nat, a: nat, b: nat)
    requires Inv(keys, s) && Enabled(s, Connect(chan, from, to)) && a in s.chans.Keys + {chan} && b in s.chans.Keys + {chan}
    ensures OneWay(Linked(s, chan, from, to), a, b)
  {
    if a != chan {
      LinkedChan(keys, s, chan, from, to, a);
    }
    if b != chan {
      LinkedChan(keys, s, chan, from, to, b);
    }
    if a != chan && b != chan {
      assert OneWay(s, a, b);
    }
  }

  lemma StepInv(keys: seq<Key>, s: Net, e: Event)
    requires Inv(keys, s)
    ensures Inv(keys, Step(s, e))
  {
    if Enabled(s, e) {
      match e
      case Connect(chan, from, to) => LinkedInv(keys, s, chan, from, to);
      case OpenAt(chan, end) => AtInv(keys, s, end, L.Open(chan));
      case CloseAt(chan, end) => AtInv(keys, s, end, L.Close(chan));
      case Fail(chan) => FailInv(keys, s, chan);
      case PowerLost(end) => AtInv(keys, s, end, L.DestroyPeers);
      case Parked(end) => AtInv(keys, s, end, L.ClearPeers);
    }
  }

  lemma {:induction false} RunInv(keys: seq<Key>, events: seq<Event>)
    requires DistinctKeys(keys)
    ensures Inv(keys, Run(keys, events))
  {
    if events != [] {
      RunInv(keys, events[..|events| - 1]);
      StepInv(keys, Run(keys, events[..|events| - 1]), events[|events| - 1]);
    }
  }

  // ─── the smaller key's channel ──────────────────────────────────────────

  /** Initiated by the smaller key of the pair. */
  predicate Smaller(keys: seq<Key>, s: Net, chan: nat) {
    chan in s.chans && s.chans[chan].from < |keys| && s.chans[chan].to < |keys|
    && Before(keys[s.chans[chan].from], keys[s.chans[chan].to])
  }

  /** At either end exactly the smaller key's channel is preferred. */
  lemma PreferredIsSmaller(keys: seq<Key>, s: Net, chan: nat, end: nat)
    requires Inv(keys, s) && IsEnd(s, chan, end)
    ensures L.Preferred(s.nodes[end].own, ConnAt(s, chan, end)) <==> Smaller(keys, s, chan)
  {
    assert ChanOk(keys, s, chan) && NodeOk(keys, s, end);
    BeforeTotal(keys[s.chans[chan].from], keys[s.chans[chan].to]);
  }

  /** Main: an open, at whichever end it happens, never makes _track destroy the channel that the
      smaller key initiated, neither its own nor the one already stored. */
  lemma TrackSparesSmaller(keys: seq<Key>, s: Net, chan: nat, end: nat, c: nat, x: nat)
    requires Inv(keys, s) && Enabled(s, OpenAt(chan, end)) && Smaller(keys, s, c) && IsEnd(s, c, x)
    ensures var r := Step(s, OpenAt(chan, end)); IsEnd(r, c, x) && ConnAt(r, c, x).destroyed == ConnAt(s, c, x).destroyed
  {
    assert NodeOk(keys, s, end);
    if x == end {
      var n := s.nodes[end];
      L.OpenDestroys(n, chan, c);
      PreferredIsSmaller(keys, s, c, x);
      PreferredIsSmaller(keys, s, chan, x);
      if L.HasRival(n, chan) && c == n.peers[n.conns[chan].remote] && Smaller(keys, s, chan) {
        assert L.EntryOk(n, n.conns[chan].remote) && L.ConnOk(n, chan);
        ClosedRival(keys, s, c, chan, x);
      }
    }
  }

  /** Of two channels of the smaller key's to the same peer, one has closed. */
  lemma ClosedRival(keys: seq<Key>, s: Net, a: nat, b: nat, x: nat)
    requires Inv(keys, s) && a != b && IsEnd(s, a, x) && IsEnd(s, b, x) && ConnAt(s, a, x).remote == ConnAt(s, b, x).remote
    requires Smaller(keys, s, a) && Smaller(keys, s, b)
    ensures ConnAt(s, a, x).closed || ConnAt(s, b, x).closed
  {
    SameWay(keys, s, a, b, x);
    assert OneWay(s, a, b);
  }

  /** Two channels of the smaller key's between the same nodes run the same way. */
  lemma SameWay(keys: seq<Key>, s: Net, a: nat, b: nat, x: nat)
    requires Inv(keys, s) && IsEnd(s, a, x) && IsEnd(s, b, x) && ConnAt(s, a, x).remote == ConnAt(s, b, x).remote
    requires Smaller(keys, s, a) && Smaller(keys, s, b)
    ensures s.chans[a].from == s.chans[b].from && s.chans[a].to == s.chans[b].to
  {
    assert ChanOk(keys, s, a) && ChanOk(keys, s, b);
    BeforeTotal(keys[s.chans[a].from], keys[s.chans[a].to]);
    BeforeTotal(keys[s.chans[b].from], keys[s.chans[b].to]);
    assert Other(s.chans[a], x) == Other(s.chans[b], x);
  }

  // ─── runs without outside failures ──────────────────────────────────────

  ghost predicate Undisturbed(events: seq<Event>) {
    forall e | e in events :: e.Connect? || e.OpenAt? || e.CloseAt?
  }

  /** Nothing has dropped the smaller keys' channels. */
  ghost predicate Spared(keys: seq<Key>, s: Net) {
    forall c | Smaller(keys, s, c) :: !Doomed(s, c)
  }

  lemma OpenSpares(keys: seq<Key>, s: Net, chan: nat, end: nat)
    requires Inv(keys, s) && Spared(keys, s) && Enabled(s, OpenAt(chan, end))
    ensures Spared(keys, Step(s, OpenAt(chan, end)))
  {
    var r := Step(s, OpenAt(chan, end));
    forall c | Smaller(keys, r, c)
      ensures !Doomed(r, c)
    {
      assert Smaller(keys, s, c) && ChanOk(keys, s, c);
      TrackSparesSmaller(keys, s, chan, end, c, s.chans[c].from);
      TrackSparesSmaller(keys, s, chan, end, c, s.chans[c].to);
    }
  }

  /** Delivering a close changes that channel's connection at that end, to a closed one. */
  lemma CloseConn(keys: seq<Key>, s: Net, chan: nat, end: nat, c: nat, x: nat)
    requires Inv(keys, s) && Enabled(s, CloseAt(chan, end)) && IsEnd(s, c, x)
    ensures var r := Step(s, CloseAt(chan, end));
            IsEnd(r, c, x) && ConnAt(r, c, x) == if c == chan && x == end then ConnAt(s, c, x).(destroyed := true, closed := true) else ConnAt(s, c, x)
  {
    L.CloseTouches(s.nodes[end], chan);
  }

  /** A close is delivered for a doomed channel only, and dooms no other. */
  lemma CloseSpares(keys: seq<Key>, s: Net, chan: nat, end: nat, c: nat)
    requires Inv(keys, s) && Enabled(s, CloseAt(chan, end)) && c in s.chans
    ensures Doomed(Step(s, CloseAt(chan, end)), c) == Doomed(s, c)
  {
    assert ChanOk(keys, s, c);
    CloseConn(keys, s, chan, end, c, s.chans[c].from);
    CloseConn(keys, s, chan, end, c, s.chans[c].to);
  }

  lemma ConnectSpares(keys: seq<Key>, s: Net, chan: nat, from: nat, to: nat)
    requires Inv(keys, s) && Spared(keys, s) && Enabled(s, Connect(chan, from, to))
    ensures Spared(keys, Linked(s, chan, from, to))
  {
    var r := Linked(s, chan, from, to);
    JoinedNode(keys, s, chan, from, to, true);
    JoinedNode(keys, s, chan, to, from, false);
    forall c | Smaller(keys, r, c)
      ensures !Doomed(r, c)
    {
      if c != chan {
        assert Smaller(keys, s, c) && ChanOk(keys, s, c);
        LinkedConn(keys, s, chan, from, to, s.chans[c].from, c);
        LinkedConn(keys, s, chan, from, to, s.chans[c].to, c);
      }
    }
  }

  lemma StepSpares(keys: seq<Key>, s: Net, e: Event)
    requires Inv(keys, s) && Spared(keys, s) && (e.Connect? || e.OpenAt? || e.CloseAt?)
    ensures Spared(keys, Step(s, e))
  {
    if Enabled(s, e) {
      match e
      case Connect(chan, from, to) => ConnectSpares(keys, s, chan, from, to);
      case OpenAt(chan, end) => OpenSpares(keys, s, chan, end);
      case CloseAt(chan, end) =>
        forall c | Smaller(keys, Step(s, e), c)
          ensures !Doomed(Step(s, e), c)
        {
          assert Smaller(keys, s, c);
          CloseSpares(keys, s, chan, end, c);
        }
    }
  }

  lemma {:induction false} RunSpares(keys: seq<Key>, events: seq<Event>)
    requires DistinctKeys(keys) && Undisturbed(events)
    ensures Inv(keys, Run(keys, events)) && Spared(keys, Run(keys, events))
  {
    RunInv(keys, events);
    if events != [] {
      var front, e := events[..|events| - 1], events[|events| - 1];
      RunSpares(keys, front);
      StepSpares(keys, Run(keys, front), e);
    }
  }

  /** The channel a node stores for a peer. */
  function Stored(keys: seq<Key>, s: Net, end: nat, peer: nat): Option<nat>
    requires end < |s.nodes| == |keys| && peer < |keys|
  {
    if keys[peer] in s.nodes[end].peers then Some(s.nodes[end].peers[keys[peer]]) else None
  }

  predicate OpenOn(s: Net, chan: nat, end: nat) {
    IsEnd(s, chan, end) && ConnAt(s, chan, end).isOpen
  }

  /** A channel open at an end and not doomed is the one stored there. */
  lemma OpenIsStored(keys: seq<Key>, s: Net, chan: nat, end: nat)
    requires Inv(keys, s) && OpenOn(s, chan, end) && !Doomed(s, chan)
    ensures Stored(keys, s, end, Other(s.chans[chan], end)) == Some(chan)
  {
    assert NodeOk(keys, s, end) && ChanOk(keys, s, chan);
    assert L.ConnOk(s.nodes[end], chan);
  }

  /** Main: in every run in which no radio fails and no node suspends, once the smaller key's channel
      is open at both ends both nodes store it, whatever became of the other direction's. */
  lemma SmallerWins(keys: seq<Key>, events: seq<Event>, chan: nat)
    requires DistinctKeys(keys) && Undisturbed(events)
    requires var s := Run(keys, events);
             Smaller(keys, s, chan) && OpenOn(s, chan, s.chans[chan].from) && OpenOn(s, chan, s.chans[chan].to)
    ensures var s := Run(keys, events); var Channel(from, to, _) := s.chans[chan];
            && |s.nodes| == |keys| && Stored(keys, s, from, to) == Some(chan) && Stored(keys, s, to, from) == Some(chan)
  {
    RunSpares(keys, events);
    var s := Run(keys, events);
    assert ChanOk(keys, s, chan);
    OpenIsStored(keys, s, chan, s.chans[chan].from);
    OpenIsStored(keys, s, chan, s.chans[chan].to);
  }

  /** A channel that fails is closing. */
  lemma FailDooms(s: Net, chan: nat)
    ensures chan in s.chans ==> Doomed(Step(s, Fail(chan)), chan)
  {}

  /** So is each one a node stored when it lost its radio or suspended. */
  lemma LossDooms(keys: seq<Key>, s: Net, end: nat, key: Key, parked: bool)
    requires Inv(keys, s) && end < |s.nodes| && key in s.nodes[end].peers
    ensures Doomed(Step(s, if parked then Parked(end) else PowerLost(end)), s.nodes[end].peers[key])
  {
    var n, chan := s.nodes[end], s.nodes[end].peers[key];
    var local := if parked then L.ClearPeers else L.DestroyPeers;
    StoredEnd(keys, s, end, key);
    L.StoredStruck(n, key);
    StruckDooms(keys, s, end, chan, local);
  }

  lemma StoredEnd(keys: seq<Key>, s: Net, end: nat, key: Key)
    requires Inv(keys, s) && end < |s.nodes| && key in s.nodes[end].peers
    ensures L.Inv(s.nodes[end]) && IsEnd(s, s.nodes[end].peers[key], end)
  {
    assert NodeOk(keys, s, end) && L.EntryOk(s.nodes[end], key);
  }

  lemma StruckDooms(keys: seq<Key>, s: Net, end: nat, chan: nat, local: L.Event)
    requires Inv(keys, s) && IsEnd(s, chan, end)
    requires var m := L.Step(s.nodes[end], local); chan in m.conns && m.conns[chan].destroyed
    ensures Doomed(At(s, end, local), chan)
  {
    var r := At(s, end, local);
    assert IsEnd(r, chan, end) && Dropped(r, chan, end);
  }

  /** Afterwards the table keeps its entries until they close, unless the node suspended. */
  lemma LossKeeps(keys: seq<Key>, s: Net, end: nat)
    requires Inv(keys, s) && end < |s.nodes|
    ensures Step(s, Parked(end)).nodes[end].peers == map[] && Step(s, PowerLost(end)).nodes[end].peers == s.nodes[end].peers
  {
    assert NodeOk(keys, s, end);
    L.EventEffects(s.nodes[end], L.ClearPeers);
    L.EventEffects(s.nodes[end], L.DestroyPeers);
  }

  // ─── settling ───────────────────────────────────────────────────────────

  /** The closes on their way. */
  ghost function InFlight(s: Net): set<(nat, nat)> {
    set c, x | c in s.chans && x in {s.chans[c].from, s.chans[c].to} && CloseDue(s, c, x) :: (c, x)
  }

  predicate CloseDue(s: Net, chan: nat, end: nat) {
    IsEnd(s, chan, end) && Doomed(s, chan) && !ConnAt(s, chan, end).closed
  }

  /** Delivering a close uses it up and sends no other, so delivery ends. */
  lemma CloseSettles(keys: seq<Key>, s: Net, chan: nat, end: nat)
    requires Inv(keys, s) && CloseDue(s, chan, end)
    ensures InFlight(Step(s, CloseAt(chan, end))) == InFlight(s) - {(chan, end)} && (chan, end) in InFlight(s)
  {
    var r := Step(s, CloseAt(chan, end));
    forall c, x | c in s.chans && x in {s.chans[c].from, s.chans[c].to}
      ensures CloseDue(r, c, x) <==> CloseDue(s, c, x) && (c, x) != (chan, end)
    {
      CloseDelivered(keys, s, chan, end, c, x);
    }
  }

  lemma CloseDelivered(keys: seq<Key>, s: Net, chan: nat, end: nat, c: nat, x: nat)
    requires Inv(keys, s) && CloseDue(s, chan, end) && c in s.chans && x in {s.chans[c].from, s.chans[c].to}
    ensures CloseDue(Step(s, CloseAt(chan, end)), c, x) <==> CloseDue(s, c, x) && (c, x) != (chan, end)
  {
    assert ChanOk(keys, s, c);
    CloseSpares(keys, s, chan, end, c);
    CloseConn(keys, s, chan, end, c, x);
  }

  /** A live channel between two nodes that completed its handshake at one end only. */
  ghost predicate HalfOpen(s: Net, a: nat, b: nat) {
    exists c | c in s.chans :: Between(s, c, a, b) && !Doomed(s, c) && OpenOn(s, c, a) != OpenOn(s, c, b)
  }

  predicate Between(s: Net, chan: nat, a: nat, b: nat)
    requires chan in s.chans
  {
    (s.chans[chan].from == a && s.chans[chan].to == b) || (s.chans[chan].from == b && s.chans[chan].to == a)
  }

  /** What a node stores for a peer, with no close in flight, is live, open there and runs between
      the two. */
  lemma StoredIsLive(keys: seq<Key>, s: Net, a: nat, b: nat)
    requires Inv(keys, s) && InFlight(s) == {} && a < |keys| && b < |keys| && Stored(keys, s, a, b).Some?
    ensures var c := Stored(keys, s, a, b).value; c in s.chans && Between(s, c, a, b) && !Doomed(s, c) && OpenOn(s, c, a)
  {
    var n := s.nodes[a];
    var c := n.peers[keys[b]];
    assert NodeOk(keys, s, a) && L.EntryOk(n, keys[b]) && L.ConnOk(n, c);
    assert ChanOk(keys, s, c);
    NotDue(keys, s, c, a);
  }

  lemma NotDue(keys: seq<Key>, s: Net, c: nat, x: nat)
    requires Inv(keys, s) && InFlight(s) == {} && IsEnd(s, c, x)
    ensures !CloseDue(s, c, x)
  {
    assert (c, x) !in InFlight(s);
  }

  /** Main: with no close in flight the two tables name the same channel, or neither names one,
      exactly when no live channel between them is half open. */
  lemma TablesAgree(keys: seq<Key>, events: seq<Event>, a: nat, b: nat)
    requires DistinctKeys(keys) && a < |keys| && b < |keys| && a != b && InFlight(Run(keys, events)) == {}
    ensures |Run(keys, events).nodes| == |keys|
    ensures var s := Run(keys, events); Stored(keys, s, a, b) == Stored(keys, s, b, a) <==> !HalfOpen(s, a, b)
  {
    RunInv(keys, events);
    AgreeNow(keys, Run(keys, events), a, b);
  }

  lemma AgreeNow(keys: seq<Key>, s: Net, a: nat, b: nat)
    requires Inv(keys, s) && a < |keys| && b < |keys| && a != b && InFlight(s) == {}
    ensures Stored(keys, s, a, b) == Stored(keys, s, b, a) <==> !HalfOpen(s, a, b)
  {
    if HalfOpen(s, a, b) {
      HalfDisagrees(keys, s, a, b);
    } else {
      WholeAgrees(keys, s, a, b);
      WholeAgrees(keys, s, b, a);
    }
  }

  lemma HalfDisagrees(keys: seq<Key>, s: Net, a: nat, b: nat)
    requires Inv(keys, s) && InFlight(s) == {} && a < |keys| && b < |keys| && a != b && HalfOpen(s, a, b)
    ensures Stored(keys, s, a, b) != Stored(keys, s, b, a)
  {
    var c :| c in s.chans && Between(s, c, a, b) && !Doomed(s, c) && OpenOn(s, c, a) != OpenOn(s, c, b);
    if OpenOn(s, c, a) {
      OpenIsStored(keys, s, c, a);
      if Stored(keys, s, b, a) == Some(c) { StoredIsLive(keys, s, b, a); }
    } else {
      OpenIsStored(keys, s, c, b);
      if Stored(keys, s, a, b) == Some(c) { StoredIsLive(keys, s, a, b); }
    }
  }

  lemma WholeAgrees(keys: seq<Key>, s: Net, a: nat, b: nat)
    requires Inv(keys, s) && InFlight(s) == {} && a < |keys| && b < |keys| && a != b && !HalfOpen(s, a, b)
    ensures Stored(keys, s, a, b).Some? ==> Stored(keys, s, b, a) == Stored(keys, s, a, b)
  {
    if Stored(keys, s, a, b).Some? {
      StoredIsLive(keys, s, a, b);
      var c := Stored(keys, s, a, b).value;
      assert OpenOn(s, c, b);
      OpenIsStored(keys, s, c, b);
    }
  }

  /** One end's handshake completes, the other's does not: nothing is in flight and the tables
      disagree. */
  lemma HalfOpenRun(a: Key, b: Key)
    requires a != b
    ensures var s := Run([a, b], [Connect(0, 0, 1), OpenAt(0, 0)]);
            && |s.nodes| == 2 && InFlight(s) == {} && HalfOpen(s, 0, 1)
            && Stored([a, b], s, 0, 1) == Some(0) && Stored([a, b], s, 1, 0) == None
  {
    var keys, c := [a, b], L.Conn(b, true, false, false, false, false, None);
    var linked := Step(Init(keys), Connect(0, 0, 1));
    assert [Connect(0, 0, 1), OpenAt(0, 0)][..1] == [Connect(0, 0, 1)] && [Connect(0, 0, 1)][..0] == [];
    assert Run(keys, [Connect(0, 0, 1)]) == linked;
    assert linked.nodes[0] == L.Node(a, map[0 := c], map[], false);
    assert linked.nodes[1] == L.Node(b, map[0 := L.Conn(a, false, false, false, false, false, None)], map[], false);
    var s := Step(linked, OpenAt(0, 0));
    assert s.nodes[0] == L.Node(a, map[0 := c.(isOpen := true, delivered := true, peerKey := Some(b))], map[b := 0], false);
    assert Between(s, 0, 0, 1) && OpenOn(s, 0, 0) && !OpenOn(s, 0, 1);
  }
}
