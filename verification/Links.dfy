/** The link table of one node: which of a peer's channels is kept, and what its close undoes. */
module Links {
  import opened Options
  import opened Bytes

  /** `peerKey`: set when the connection was kept. `closed`: its close event was handled.
      `isOpen` and `delivered` are histories: the handshake completed, onconnection was called. */
  datatype Conn = Conn(
    remote: Key,
    initiator: bool,
    isOpen: bool,
    delivered: bool,
    destroyed: bool,
    closed: bool,
    peerKey: Option<Key>)

  datatype Node = Node(own: Key, conns: map<nat, Conn>, peers: map<Key, nat>, closing: bool)

  datatype Event =
    | Create(conn: nat, remote: Key, initiator: bool)
    | Open(conn: nat)
    | Close(conn: nat)
    | Destroy(conn: nat)
    | DestroyPeers
    | ClearPeers
    | CloseBegins

  /** The channel kept is the one whose initiator has the smaller static key. */
  predicate Preferred(own: Key, c: Conn) {
    c.initiator == Before(own, c.remote)
  }

  function Mark(s: Node, conn: nat): Node {
    if conn in s.conns then s.(conns := s.conns[conn := s.conns[conn].(destroyed := true)]) else s
  }

  /** Store the connection under its key and hand it to onconnection. */
  function Keep(s: Node, conn: nat): Node
    requires conn in s.conns
  {
    var c := s.conns[conn];
    s.(conns := s.conns[conn := c.(delivered := true, peerKey := Some(c.remote))], peers := s.peers[c.remote := conn])
  }

  /** The duplicate already stored under the same key. */
  predicate HasRival(s: Node, conn: nat)
    requires conn in s.conns
  {
    s.conns[conn].remote in s.peers && s.peers[s.conns[conn].remote] != conn
  }

  function Retire(s: Node, conn: nat): Node
    requires conn in s.conns
  {
    if HasRival(s, conn) then Mark(Keep(s, conn), s.peers[s.conns[conn].remote]) else Keep(s, conn)
  }

  /** Whether an opening connection is kept and handed out. */
  predicate Keeps(s: Node, conn: nat)
    requires conn in s.conns
  {
    !s.closing && (HasRival(s, conn) ==> Preferred(s.own, s.conns[conn]))
  }

  function Track(s: Node, conn: nat): Node
    requires conn in s.conns
  {
    if Keeps(s, conn) then Retire(s, conn) else if s.closing then s else Mark(s, conn)
  }

  function Untrack(s: Node, conn: nat): Node
    requires conn in s.conns
  {
    var key := s.conns[conn].peerKey;
    if key.Some? && key.value in s.peers && s.peers[key.value] == conn then s.(peers := s.peers - {key.value}) else s
  }

  function OnOpen(s: Node, conn: nat): Node
    requires conn in s.conns
  {
    Track(s.(conns := s.conns[conn := s.conns[conn].(isOpen := true)]), conn)
  }

  function OnClose(s: Node, conn: nat): Node
    requires conn in s.conns
  {
    Untrack(s.(conns := s.conns[conn := s.conns[conn].(destroyed := true, closed := true)]), conn)
  }

  function DestroyStored(s: Node): Node {
    s.(conns := map conn | conn in s.conns :: if IsPeer(s, conn) then s.conns[conn].(destroyed := true) else s.conns[conn])
  }

  predicate IsPeer(s: Node, conn: nat)
    requires conn in s.conns
  {
    s.conns[conn].remote in s.peers && s.peers[s.conns[conn].remote] == conn
  }

  predicate Enabled(s: Node, e: Event) {
    match e
    case Create(conn, _, _) => conn !in s.conns
    case Open(conn) => conn in s.conns && !s.conns[conn].destroyed && !s.conns[conn].isOpen
    case Close(conn) => conn in s.conns && !s.conns[conn].closed
    case _ => true
  }

  function Apply(s: Node, e: Event): Node
    requires Enabled(s, e)
  {
    match e
    case Create(conn, remote, initiator) => s.(conns := s.conns[conn := Conn(remote, initiator, false, false, false, false, None)])
    case Open(conn) => OnOpen(s, conn)
    case Close(conn) => OnClose(s, conn)
    case Destroy(conn) => Mark(s, conn)
    case DestroyPeers => DestroyStored(s)
    case ClearPeers => DestroyStored(s).(peers := map[])
    case CloseBegins => s.(closing := true)
  }

  function Step(s: Node, e: Event): Node {
    if Enabled(s, e) then Apply(s, e) else s
  }

  function Run(own: Key, events: seq<Event>): Node {
    if events == [] then Node(own, map[], map[], false)
    else Step(Run(own, events[..|events| - 1]), events[|events| - 1])
  }

  // ─── the table invariant ────────────────────────────────────────────────

  /** A delivered connection not yet destroyed is the one stored under its remote key; an opened
      one that was not kept is destroyed. */
  predicate ConnOk(s: Node, conn: nat)
    requires conn in s.conns
  {
    var c := s.conns[conn];
    && (c.delivered && !c.destroyed ==> IsPeer(s, conn))
    && (c.isOpen && !c.destroyed && !s.closing ==> c.delivered)
    && (c.delivered ==> c.isOpen && c.peerKey == Some(c.remote))
    && (c.closed ==> c.destroyed)
  }

  /** What is stored was kept, and its close has not been handled. */
  predicate EntryOk(s: Node, key: Key)
    requires key in s.peers
  {
    var conn := s.peers[key];
    conn in s.conns && s.conns[conn].remote == key && s.conns[conn].delivered && !s.conns[conn].closed
  }

  ghost predicate Inv(s: Node) {
    && (forall conn | conn in s.conns :: ConnOk(s, conn))
    && (forall key | key in s.peers :: EntryOk(s, key))
  }

  lemma MarkInv(s: Node, conn: nat)
    requires Inv(s)
    ensures Inv(Mark(s, conn))
  {
    var r := Mark(s, conn);
    forall i | i in r.conns
      ensures ConnOk(r, i)
    {
      assert ConnOk(s, i);
    }
    forall key | key in r.peers
      ensures EntryOk(r, key)
    {
      assert EntryOk(s, key);
    }
  }

  lemma OpenConns(s: Node, conn: nat)
    requires Inv(s) && Enabled(s, Open(conn))
    ensures forall i | i in OnOpen(s, conn).conns :: ConnOk(OnOpen(s, conn), i)
  {
    var r := OnOpen(s, conn);
    assert ConnOk(s, conn);
    var k := s.conns[conn].remote;
    assert k in s.peers ==> EntryOk(s, k);
    forall i | i in r.conns
      ensures ConnOk(r, i)
    {
      assert ConnOk(s, i);
    }
  }

  lemma OpenEntries(s: Node, conn: nat)
    requires Inv(s) && Enabled(s, Open(conn))
    ensures forall key | key in OnOpen(s, conn).peers :: EntryOk(OnOpen(s, conn), key)
  {
    var r := OnOpen(s, conn);
    assert ConnOk(s, conn);
    forall key | key in r.peers
      ensures EntryOk(r, key)
    {
      assert key in s.peers ==> EntryOk(s, key);
    }
  }

  lemma OpenInv(s: Node, conn: nat)
    requires Inv(s) && Enabled(s, Open(conn))
    ensures Inv(OnOpen(s, conn))
  {
    OpenConns(s, conn);
    OpenEntries(s, conn);
  }

  lemma CloseInv(s: Node, conn: nat)
    requires Inv(s) && conn in s.conns
    ensures Inv(OnClose(s, conn))
  {
    var r := OnClose(s, conn);
    assert ConnOk(s, conn);
    forall i | i in r.conns
      ensures ConnOk(r, i)
    {
      assert ConnOk(s, i);
    }
    forall key | key in r.peers
      ensures EntryOk(r, key)
    {
      assert EntryOk(s, key);
    }
  }

  lemma DestroyPeersInv(s: Node)
    requires Inv(s)
    ensures Inv(DestroyStored(s)) && Inv(DestroyStored(s).(peers := map[]))
  {
    var r := DestroyStored(s);
    forall i | i in r.conns
      ensures ConnOk(r, i) && ConnOk(r.(peers := map[]), i)
    {
      assert ConnOk(s, i);
    }
    forall key | key in r.peers
      ensures EntryOk(r, key)
    {
      assert EntryOk(s, key);
    }
  }

  lemma CreateInv(s: Node, conn: nat, remote: Key, initiator: bool)
    requires Inv(s) && conn !in s.conns
    ensures Inv(Apply(s, Create(conn, remote, initiator)))
  {
    var r := Apply(s, Create(conn, remote, initiator));
    forall i | i in r.conns
      ensures ConnOk(r, i)
    {
      if i != conn {
        assert ConnOk(s, i);
      }
    }
    forall key | key in r.peers
      ensures EntryOk(r, key)
    {
      assert EntryOk(s, key);
    }
  }

  lemma StepInv(s: Node, e: Event)
    requires Inv(s)
    ensures Inv(Step(s, e))
  {
    if Enabled(s, e) {
      match e
      case Create(conn, remote, initiator) => CreateInv(s, conn, remote, initiator);
      case Open(conn) => OpenInv(s, conn);
      case Close(conn) => CloseInv(s, conn);
      case Destroy(conn) => MarkInv(s, conn);
      case DestroyPeers => DestroyPeersInv(s);
      case ClearPeers => DestroyPeersInv(s);
      case CloseBegins =>
        forall i | i in s.conns
          ensures ConnOk(s.(closing := true), i)
        {
          assert ConnOk(s, i);
        }
        forall key | key in s.peers
          ensures EntryOk(s.(closing := true), key)
        {
          assert EntryOk(s, key);
        }
    }
  }

  lemma {:induction false} RunInv(own: Key, events: seq<Event>)
    ensures Inv(Run(own, events))
  {
    if events != [] {
      RunInv(own, events[..|events| - 1]);
      StepInv(Run(own, events[..|events| - 1]), events[|events| - 1]);
    }
  }

  /** Main: in every run, a connection handed out and not yet destroyed is the one stored under
      its remote key, so no key has two. */
  lemma OneLivePerPeer(own: Key, events: seq<Event>, a: nat, b: nat)
    requires var s := Run(own, events);
             && a in s.conns && s.conns[a].delivered && !s.conns[a].destroyed
             && b in s.conns && s.conns[b].delivered && !s.conns[b].destroyed
             && s.conns[a].remote == s.conns[b].remote
    ensures var s := Run(own, events);
            a == b && s.conns[a].remote in s.peers && s.peers[s.conns[a].remote] == a
  {
    RunInv(own, events);
    var s := Run(own, events);
    assert ConnOk(s, a) && ConnOk(s, b);
  }

  predicate Stored(s: Node, conn: nat) {
    conn in s.conns && s.conns[conn].remote in s.peers && s.peers[s.conns[conn].remote] == conn
  }

  /** What takes a stored connection's entry away: its own close, a preferred connection to the
      same peer that opens, or the clearing of the table. Not the close of another, however late,
      and not a dispreferred duplicate. */
  predicate Evicts(s: Node, e: Event, conn: nat)
    requires conn in s.conns
  {
    match e
    case Close(c) => c == conn && !s.conns[conn].closed
    case Open(c) =>
      && c != conn && Enabled(s, e) && !s.closing
      && s.conns[c].remote == s.conns[conn].remote && Preferred(s.own, s.conns[c])
    case ClearPeers => true
    case _ => false
  }

  lemma StepEvicts(s: Node, e: Event, conn: nat)
    requires Inv(s) && conn in s.conns && s.conns[conn].delivered
    ensures var r := Step(s, e);
            && conn in r.conns && r.conns[conn].delivered && r.conns[conn].remote == s.conns[conn].remote
            && (Stored(r, conn) <==> Stored(s, conn) && !Evicts(s, e, conn))
  {
    assert ConnOk(s, conn);
    if e.Close? && Enabled(s, e) {
      CloseEvicts(s, e.conn, conn);
    } else if e.Open? && Enabled(s, e) {
      OpenEvicts(s, e.conn, conn);
    }
  }

  lemma OpenEvicts(s: Node, c: nat, conn: nat)
    requires Inv(s) && Enabled(s, Open(c)) && conn in s.conns && s.conns[conn].delivered
    ensures var r := OnOpen(s, c);
            && conn in r.conns && r.conns[conn].delivered && r.conns[conn].remote == s.conns[conn].remote
            && (Stored(r, conn) <==> Stored(s, conn) && !Evicts(s, Open(c), conn))
  {
    assert ConnOk(s, c) && ConnOk(s, conn);
    var k := s.conns[conn].remote;
    assert k in s.peers ==> EntryOk(s, k);
  }

  lemma CloseEvicts(s: Node, c: nat, conn: nat)
    requires Inv(s) && Enabled(s, Close(c)) && conn in s.conns && s.conns[conn].delivered
    ensures Stored(OnClose(s, c), conn) <==> Stored(s, conn) && c != conn
  {
    assert ConnOk(s, c) && ConnOk(s, conn);
    var key := s.conns[c].peerKey;
    assert key.Some? && key.value in s.peers ==> EntryOk(s, key.value);
  }

  /** No event of the run's continuation takes the entry away. */
  ghost predicate Spared(own: Key, before: seq<Event>, after: seq<Event>, conn: nat) {
    forall i | 0 <= i < |after| ::
      var s := Run(own, before + after[..i]); conn in s.conns && !Evicts(s, after[i], conn)
  }

  /** Main: over any continuation of any run, a stored connection is still the one stored if and
      only if nothing that evicts it happened: the late close of a retired duplicate never does. */
  lemma {:induction false} StoredUntilEvicted(own: Key, before: seq<Event>, after: seq<Event>, conn: nat)
    requires Stored(Run(own, before), conn)
    ensures var r := Run(own, before + after);
            conn in r.conns && r.conns[conn].delivered && (Stored(r, conn) <==> Spared(own, before, after, conn))
  {
    if after == [] {
      assert before + after == before;
      RunInv(own, before);
      assert EntryOk(Run(own, before), Run(own, before).conns[conn].remote);
    } else {
      var n := |after| - 1;
      StoredUntilEvicted(own, before, after[..n], conn);
      RunInv(own, before + after[..n]);
      RunThen(own, before, after);
      var s := Run(own, before + after[..n]);
      StepEvicts(s, after[n], conn);
      SparedThen(own, before, after, conn, s);
    }
  }

  lemma RunThen(own: Key, before: seq<Event>, after: seq<Event>)
    requires after != []
    ensures Run(own, before + after) == Step(Run(own, before + after[..|after| - 1]), after[|after| - 1])
  {
    assert (before + after)[..|before| + |after| - 1] == before + after[..|after| - 1];
  }

  lemma SparedThen(own: Key, before: seq<Event>, after: seq<Event>, conn: nat, s: Node)
    requires after != [] && s == Run(own, before + after[..|after| - 1]) && conn in s.conns
    ensures Spared(own, before, after, conn)
            <==> Spared(own, before, after[..|after| - 1], conn) && !Evicts(s, after[|after| - 1], conn)
  {
    var front := after[..|after| - 1];
    assert forall i | 0 <= i < |front| :: front[..i] == after[..i] && front[i] == after[i];
  }

  /** Once every destroyed connection's close was handled, the table holds exactly the opened
      connections that live. */
  lemma SettledTable(own: Key, events: seq<Event>, conn: nat)
    requires var s := Run(own, events);
             !s.closing && conn in s.conns && (s.conns[conn].destroyed ==> s.conns[conn].closed)
    ensures var s := Run(own, events);
            (exists key | key in s.peers :: s.peers[key] == conn) <==> s.conns[conn].isOpen && !s.conns[conn].destroyed
  {
    RunInv(own, events);
    var s := Run(own, events);
    assert ConnOk(s, conn);
    if key :| key in s.peers && s.peers[key] == conn {
      assert EntryOk(s, key);
    }
  }

  lemma CloseTouches(s: Node, conn: nat)
    requires Enabled(s, Close(conn))
    ensures Step(s, Close(conn)).conns == s.conns[conn := s.conns[conn].(destroyed := true, closed := true)]
  {}

  /** Which connections an open destroys: itself, or the rival it retires. */
  lemma OpenDestroys(s: Node, conn: nat, c: nat)
    requires Inv(s) && Enabled(s, Open(conn)) && !s.closing && c in s.conns
    ensures var r := Step(s, Open(conn));
            c in r.conns && (r.conns[c].destroyed <==>
              || s.conns[c].destroyed
              || (c == conn && HasRival(s, conn) && !Preferred(s.own, s.conns[conn]))
              || (HasRival(s, conn) && c == s.peers[s.conns[conn].remote] && Preferred(s.own, s.conns[conn])))
  {
    if HasRival(s, conn) {
      assert EntryOk(s, s.conns[conn].remote);
    }
  }

  /** What the other events do: a connection starts unopened and unkept, a destroyed one keeps its
      entry until it closes, losing the radio destroys exactly the stored ones, suspending clears the
      table as well. */
  lemma EventEffects(s: Node, e: Event)
    requires Inv(s) && Enabled(s, e) && !e.Open? && !e.Close?
    ensures var r := Step(s, e);
            && r.own == s.own && r.closing == (s.closing || e.CloseBegins?)
            && r.peers == (if e.ClearPeers? then map[] else s.peers)
            && r.conns.Keys == s.conns.Keys + (if e.Create? then {e.conn} else {})
            && (e.Create? ==> r.conns[e.conn] == Conn(e.remote, e.initiator, false, false, false, false, None))
            && forall c | c in s.conns :: r.conns[c] == Hit(s, e, c)
  {
    forall c | c in s.conns && c in s.peers.Values
      ensures s.conns[c].remote in s.peers && s.peers[s.conns[c].remote] == c
    {
      var key :| key in s.peers && s.peers[key] == c;
      assert EntryOk(s, key);
    }
  }

  /** Each stored connection is destroyed when the radio is lost and when the node suspends. */
  lemma StoredStruck(s: Node, key: Key)
    requires Inv(s) && key in s.peers
    ensures var a, b, c := Step(s, DestroyPeers), Step(s, ClearPeers), s.peers[key];
            c in a.conns && a.conns[c].destroyed && c in b.conns && b.conns[c].destroyed
  {
    assert EntryOk(s, key);
  }

  function Hit(s: Node, e: Event, c: nat): Conn
    requires c in s.conns
  {
    if e == Destroy(c) || ((e.DestroyPeers? || e.ClearPeers?) && c in s.peers.Values) then s.conns[c].(destroyed := true) else s.conns[c]
  }

  // ─── the object ─────────────────────────────────────────────────────────

  /** The table as the source keeps it. */
  class Table {
    const own: Key
    var conns: map<nat, Conn>
    var peers: map<Key, nat>
    var closing: bool
    ghost var handed: seq<nat>

    ghost function State(): Node
      reads this
    {
      Node(own, conns, peers, closing)
    }

    constructor (own: Key)
      ensures State() == Run(own, []) && handed == []
    {
      this.own, conns, peers, closing, handed := own, map[], map[], false, [];
      new;
      assert State() == Run(own, []);
    }

    /** The table is in a state some run reaches. */
    ghost predicate Reachable()
      reads this
    {
      exists events :: State() == Run(own, events)
    }

    /** Every event that can happen goes to its handler, and the table stays on a run. */
    method Handle(e: Event)
      requires Reachable() && Enabled(State(), e)
      modifies this
      ensures State() == Step(old(State()), e) && Reachable()
    {
      ghost var events :| State() == Run(own, events);
      RunInv(own, events);
      assert (events + [e])[..|events|] == events;
      Dispatch(e);
      assert State() == Run(own, events + [e]);
    }

    /** What the table promises holds of the object itself. */
    lemma LiveIsStored(conn: nat)
      requires Reachable() && conn in conns && conns[conn].delivered && !conns[conn].destroyed
      ensures conns[conn].remote in peers && peers[conns[conn].remote] == conn
    {
      var events :| State() == Run(own, events);
      RunInv(own, events);
      assert ConnOk(State(), conn);
    }

    method Dispatch(e: Event)
      requires Inv(State()) && Enabled(State(), e)
      modifies this
      ensures State() == Apply(old(State()), e)
    {
      match e
      case Create(conn, remote, initiator) => conns := conns[conn := Conn(remote, initiator, false, false, false, false, None)];
      case Open(conn) => HandshakeDone(conn);
      case Close(conn) => ConnClosed(conn);
      case Destroy(conn) => if conn in conns { DestroyConn(conn); }
      case DestroyPeers => DestroyAll();
      case ClearPeers =>
        DestroyAll();
        peers := map[];
      case CloseBegins => closing := true;
    }

    method HandshakeDone(conn: nat)
      requires Inv(State()) && conn in conns
      modifies this`conns, this`peers, this`handed
      ensures State() == OnOpen(old(State()), conn)
    {
      forall key | key in peers
        ensures peers[key] in conns
      {
        assert EntryOk(State(), key);
      }
      conns := conns[conn := conns[conn].(isOpen := true)];
      TrackConn(conn);
    }

    method ConnClosed(conn: nat)
      requires conn in conns
      modifies this`conns, this`peers
      ensures State() == OnClose(old(State()), conn)
    {
      conns := conns[conn := conns[conn].(destroyed := true, closed := true)];
      UntrackConn(conn);
    }

    /** _destroyPeers: the loop over the stored connections. */
    method DestroyAll()
      requires Inv(State())
      modifies this`conns
      ensures State() == DestroyStored(old(State()))
    {
      ghost var was := State();
      var todo := peers.Keys;
      while todo != {}
        invariant todo <= peers.Keys && conns == Struck(was, peers.Keys - todo)
        decreases |todo|
      {
        var key :| key in todo;
        StrikeOne(was, peers.Keys - todo, key);
        assert peers.Keys - (todo - {key}) == peers.Keys - todo + {key};
        DestroyConn(peers[key]);
        todo := todo - {key};
      }
      assert peers.Keys - {} == peers.Keys;
      StruckAll(was);
    }

    static lemma StruckAll(s: Node)
      ensures s.(conns := Struck(s, s.peers.Keys)) == DestroyStored(s)
    {}

    /** The connections once those stored under these keys were destroyed. */
    static ghost function Struck(s: Node, keys: set<Key>): map<nat, Conn> {
      map conn | conn in s.conns :: if IsPeer(s, conn) && s.conns[conn].remote in keys then s.conns[conn].(destroyed := true) else s.conns[conn]
    }

    static lemma StrikeOne(s: Node, keys: set<Key>, key: Key)
      requires Inv(s) && key in s.peers
      ensures s.peers[key] in s.conns
      ensures Struck(s, keys + {key}) == Struck(s, keys)[s.peers[key] := Struck(s, keys)[s.peers[key]].(destroyed := true)]
    {
      assert EntryOk(s, key);
    }

    method DestroyConn(conn: nat)
      requires conn in conns
      modifies this`conns
      ensures State() == Mark(old(State()), conn)
    {
      conns := conns[conn := conns[conn].(destroyed := true)];
    }

    /** `handed`: the calls of onconnection. */
    method TrackConn(conn: nat)
      requires conn in conns && forall key | key in peers :: peers[key] in conns
      modifies this`conns, this`peers, this`handed
      ensures State() == Track(old(State()), conn)
      ensures handed == old(handed) + (if Keeps(old(State()), conn) then [conn] else [])
    {
      if closing {
        return;
      }
      var c := conns[conn];
      var key := c.remote;
      var existing := if key in peers then Some(peers[key]) else None;
      if existing.Some? && existing.value != conn {
        var initiatorIsUsSmaller := Before(own, c.remote);
        if c.initiator != initiatorIsUsSmaller {
          DestroyConn(conn);
          return;
        }
      }
      conns := conns[conn := c.(peerKey := Some(key), delivered := true)];
      peers := peers[key := conn];
      assert State() == Keep(old(State()), conn);
      if existing.Some? && existing.value != conn {
        DestroyConn(existing.value);
      }
      handed := handed + [conn];
    }

    method UntrackConn(conn: nat)
      requires conn in conns
      modifies this`peers
      ensures State() == Untrack(old(State()), conn)
    {
      var key := conns[conn].peerKey;
      if key.Some? && key.value in peers && peers[key.value] == conn {
        peers := peers - {key.value};
      }
    }
  }
}
