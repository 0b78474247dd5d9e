/** Tie-break refusals among n nodes: a busy server turns away the dials of larger keys, never in a
    circle, and what keeps it busy runs out. */
module TieBreak {
  import opened Options
  import opened Bytes
  import opened Frames
  import S = Server
  import SL = ServerLaws
  import D = Dialer
  import T = DialTimers
  import O = DialOrder
  import B = DialBackoff

  datatype Node = Node(cfg: S.Config, max: nat, server: S.State, dialer: D.State)

  /** An OPEN refused by the tie-break: the key it carried, who refused, and the scheduler of the
      refusing node at that moment. */
  datatype Refusal = Refusal(dialer: Key, server: nat, at: D.State)

  datatype Net = Net(nodes: seq<Node>, refusals: seq<Refusal>)

  datatype Event =
    | AtServer(node: nat, event: S.Event)
    | AtDialer(node: nat, scheduling: D.Event)

  /** The key of the OPEN that this write makes the node refuse by the tie-break. */
  function Refused(n: Node, e: S.Event): Option<Key> {
    if !e.WriteRequest? || !n.server.phase.Running? then None
    else
      var f := Unwire(e.bytes);
      if f.None? || f.value.kind != TYPE_OPEN || f.value.id in n.server.sessions then None
      else
        var open := DecodeKey(f.value.payload);
        if S.Judge(n.cfg, n.server, open, e.allow, e.busy).TieBreak? then Some(Key(open.key)) else None
  }

  /** `busy` is the node's own dialling. */
  predicate Enabled(s: Net, e: Event) {
    e.node < |s.nodes| && (e.AtServer? && e.event.WriteRequest? ==> e.event.busy == D.Busy(s.nodes[e.node].dialer))
  }

  ghost function Step(s: Net, e: Event): Net {
    if !Enabled(s, e) then s
    else
      var n := s.nodes[e.node];
      match e
      case AtServer(i, event) =>
        var refused := Refused(n, event);
        Net(s.nodes[i := n.(server := S.Step(n.cfg, n.server, event))],
            if refused.Some? then s.refusals + [Refusal(refused.value, i, n.dialer)] else s.refusals)
      case AtDialer(i, event) => s.(nodes := s.nodes[i := n.(dialer := D.Step(n.max, n.dialer, event))])
  }

  datatype Setup = Setup(cfg: S.Config, max: nat, now: int, centralOn: bool, online: bool)

  function Start(setup: Setup): Node {
    Node(setup.cfg, setup.max, S.INIT, D.Init(setup.now, setup.centralOn, setup.online))
  }

  ghost function Run(setups: seq<Setup>, events: seq<Event>): Net {
    if events == [] then Net(seq(|setups|, i requires 0 <= i < |setups| => Start(setups[i])), [])
    else Step(Run(setups, events[..|events| - 1]), events[|events| - 1])
  }

  // ─── every refusal ──────────────────────────────────────────────────────

  /** What a tie-break verdict takes: a larger key, and a server that is dialling itself. */
  lemma TieBreakMeans(cfg: S.Config, s: S.State, open: KeyPayload, allow: bool, busy: bool)
    requires S.Judge(cfg, s, open, allow, busy).TieBreak?
    ensures Less(cfg.key, open.key) && busy
  {
    LessTotal(cfg.key, open.key);
  }

  /** Main: a refusal is recorded exactly when a running server gets a fresh OPEN that it could take
      but for its own smaller key and its own dialling; the dialer is then told, without a reason. */
  lemma RecordedWhen(n: Node, buf: seq<byte>, p: Packet, allow: bool, busy: bool)
    requires Unwire(buf) == Some(p) && |n.cfg.key| == KEY_LEN && S.ListenerOk(n.server)
    ensures var open := DecodeKey(p.payload);
            var tied := && n.server.phase.Running? && p.kind == TYPE_OPEN && p.id !in n.server.sessions
                        && !SL.Never(n.cfg, open, allow) && (n.cfg.l2cap ==> n.server.psm.Some?)
                        && |n.server.sessions| < n.cfg.maxInbound && Less(n.cfg.key, open.key) && busy;
            && Refused(n, S.WriteRequest(buf, allow, busy)) == (if tied then Some(Key(open.key)) else None)
            && (tied ==> SL.Refused(n.server, S.Step(n.cfg, n.server, S.WriteRequest(buf, allow, busy)), p.id, 0))
  {
    var open := DecodeKey(p.payload);
    if open.key != n.cfg.key {
      LessTotal(open.key, n.cfg.key);
    }
    SL.JudgedBy(n.cfg, n.server, open, allow, busy);
    if n.server.phase.Running? && p.kind == TYPE_OPEN && p.id !in n.server.sessions {
      SL.OpenAnswered(n.cfg, n.server, buf, p, allow, busy);
    }
  }

  /** The net runs each node's machines as they are, and keeps every refusal. */
  lemma StepRuns(s: Net, i: nat, event: S.Event, scheduling: D.Event)
    requires i < |s.nodes| && (event.WriteRequest? ==> event.busy == D.Busy(s.nodes[i].dialer))
    ensures var n, r, q := s.nodes[i], Step(s, AtServer(i, event)), Step(s, AtDialer(i, scheduling));
            && r.nodes == s.nodes[i := n.(server := S.Step(n.cfg, n.server, event))]
            && r.refusals == s.refusals + (if Refused(n, event).Some? then [Refusal(Refused(n, event).value, i, n.dialer)] else [])
            && q == s.(nodes := s.nodes[i := n.(dialer := D.Step(n.max, n.dialer, scheduling))])
  {}

  /** A dial timer or the flush timer is armed. */
  ghost predicate DialArmed(d: D.State) {
    exists t :: t in d.timers && !d.timers[t].ScanTick?
  }

  ghost predicate RefusalOk(setups: seq<Setup>, r: Refusal) {
    r.server < |setups| && Less(setups[r.server].cfg.key, r.dialer.bytes) && DialArmed(r.at)
  }

  predicate NodeFixed(setup: Setup, n: Node) {
    n.cfg == setup.cfg && n.max == setup.max
  }

  ghost predicate Inv(setups: seq<Setup>, s: Net) {
    && |s.nodes| == |setups|
    && (forall i | 0 <= i < |setups| :: NodeFixed(setups[i], s.nodes[i]) && T.Book(s.nodes[i].dialer) && T.Quiet(s.nodes[i].dialer))
    && (forall k | 0 <= k < |s.refusals| :: RefusalOk(setups, s.refusals[k]))
  }

  lemma ServerInv(setups: seq<Setup>, s: Net, i: nat, event: S.Event)
    requires Inv(setups, s) && Enabled(s, AtServer(i, event))
    ensures Inv(setups, Step(s, AtServer(i, event)))
  {
    var n := s.nodes[i];
    if Refused(n, event).Some? {
      TieBreakMeans(n.cfg, n.server, DecodeKey(Unwire(event.bytes).value.payload), event.allow, event.busy);
      T.BusyHasTimer(n.dialer);
      assert RefusalOk(setups, Refusal(Refused(n, event).value, i, n.dialer));
    }
  }

  lemma DialerInv(setups: seq<Setup>, s: Net, i: nat, event: D.Event)
    requires Inv(setups, s) && Enabled(s, AtDialer(i, event))
    ensures Inv(setups, Step(s, AtDialer(i, event)))
  {
    T.StepBook(s.nodes[i].max, s.nodes[i].dialer, event);
    T.StepQuiet(s.nodes[i].max, s.nodes[i].dialer, event);
  }

  lemma StepInv(setups: seq<Setup>, s: Net, e: Event)
    requires Inv(setups, s)
    ensures Inv(setups, Step(s, e))
  {
    if Enabled(s, e) {
      match e
      case AtServer(i, event) => ServerInv(setups, s, i, event);
      case AtDialer(i, event) => DialerInv(setups, s, i, event);
    }
  }

  lemma {:induction false} RunInv(setups: seq<Setup>, events: seq<Event>)
    ensures Inv(setups, Run(setups, events))
  {
    if events == [] {
      forall i | 0 <= i < |setups|
        ensures T.Book(Start(setups[i]).dialer) && T.Quiet(Start(setups[i]).dialer)
      {
        T.InitBook(setups[i].now, setups[i].centralOn, setups[i].online);
      }
    } else {
      RunInv(setups, events[..|events| - 1]);
      StepInv(setups, Run(setups, events[..|events| - 1]), events[|events| - 1]);
    }
  }

  /** Main: in every run every tie-break refusal goes to a larger key, at a node with a dial timer
      or the flush timer armed. */
  lemma RefusalsDescend(setups: seq<Setup>, events: seq<Event>, k: nat)
    requires k < |Run(setups, events).refusals|
    ensures RefusalOk(setups, Run(setups, events).refusals[k])
  {
    RunInv(setups, events);
  }

  // ─── no circle of refusals ──────────────────────────────────────────────

  /** Node `a`, dialling, was refused by node `b`. */
  ghost predicate WasRefused(setups: seq<Setup>, s: Net, a: nat, b: nat) {
    a < |setups| && exists k | 0 <= k < |s.refusals| :: s.refusals[k].dialer.bytes == setups[a].cfg.key && s.refusals[k].server == b
  }

  /** Each refused by the next. */
  ghost predicate IsChain(setups: seq<Setup>, s: Net, chain: seq<nat>) {
    forall i | 0 <= i < |chain| - 1 :: WasRefused(setups, s, chain[i], chain[i + 1])
  }

  lemma LinkDescends(setups: seq<Setup>, s: Net, a: nat, b: nat)
    requires Inv(setups, s) && WasRefused(setups, s, a, b)
    ensures b < |setups| && Less(setups[b].cfg.key, setups[a].cfg.key)
  {
    var k :| 0 <= k < |s.refusals| && s.refusals[k].dialer.bytes == setups[a].cfg.key && s.refusals[k].server == b;
    assert RefusalOk(setups, s.refusals[k]);
  }

  lemma {:induction false} ChainDescends(setups: seq<Setup>, s: Net, chain: seq<nat>)
    requires Inv(setups, s) && |chain| >= 2 && IsChain(setups, s, chain)
    ensures chain[0] < |setups| && chain[|chain| - 1] < |setups|
    ensures Less(setups[chain[|chain| - 1]].cfg.key, setups[chain[0]].cfg.key)
  {
    var n := |chain| - 1;
    assert WasRefused(setups, s, chain[n - 1], chain[n - 1 + 1]);
    LinkDescends(setups, s, chain[n - 1], chain[n]);
    if n > 1 {
      ChainDescends(setups, s, chain[..n]);
      LessTransitive(setups[chain[n]].cfg.key, setups[chain[n - 1]].cfg.key, setups[chain[0]].cfg.key);
    }
  }

  /** Main: no chain of refusals returns to where it started, so no two nodes refuse each other,
      and among any nodes one is refused by none of the others. */
  lemma NoCircle(setups: seq<Setup>, events: seq<Event>, chain: seq<nat>)
    requires |chain| >= 2 && IsChain(setups, Run(setups, events), chain)
    ensures chain[0] != chain[|chain| - 1]
  {
    RunInv(setups, events);
    ChainDescends(setups, Run(setups, events), chain);
    LessIrreflexive(setups[chain[0]].cfg.key);
  }

  lemma {:induction false} Least(setups: seq<Setup>, group: seq<nat>) returns (least: nat)
    requires group != [] && forall b | b in group :: b < |setups|
    ensures least in group && forall b | b in group :: !Less(setups[b].cfg.key, setups[least].cfg.key)
  {
    var first := group[0];
    assert first in group;
    LessIrreflexive(setups[first].cfg.key);
    if |group| == 1 {
      return first;
    }
    assert forall b | b in group[1..] :: b in group;
    assert group == [first] + group[1..];
    least := Least(setups, group[1..]);
    if Less(setups[first].cfg.key, setups[least].cfg.key) {
      forall b | b in group
        ensures !Less(setups[b].cfg.key, setups[first].cfg.key)
      {
        if Less(setups[b].cfg.key, setups[first].cfg.key) {
          LessTransitive(setups[b].cfg.key, setups[first].cfg.key, setups[least].cfg.key);
        }
      }
      least := first;
    }
  }

  /** Main: in every group of nodes there is one that none of them ever refused by the tie-break. */
  lemma SomeoneGetsThrough(setups: seq<Setup>, events: seq<Event>, group: seq<nat>) returns (least: nat)
    requires group != [] && forall b | b in group :: b < |setups|
    ensures least in group && forall b | b in group :: !WasRefused(setups, Run(setups, events), least, b)
  {
    RunInv(setups, events);
    least := Least(setups, group);
    forall b | b in group
      ensures !WasRefused(setups, Run(setups, events), least, b)
    {
      if WasRefused(setups, Run(setups, events), least, b) {
        LinkDescends(setups, Run(setups, events), least, b);
      }
    }
  }

  // ─── a busy node does not stay busy ─────────────────────────────────────

  function Dialling(devices: map<nat, D.Device>): set<nat> {
    set id | id in devices && devices[id].timer.Some?
  }

  /** Dials in flight, and twice the candidates: each of those may become a dial. */
  function Work(d: D.State): nat {
    2 * |d.candidates| + |Dialling(d.devices)|
  }

  lemma BusyIsWork(d: D.State)
    ensures D.Busy(d) <==> Work(d) > 0
  {
    if D.IsDialing(d) {
      var id :| id in d.devices && d.devices[id].timer.Some?;
      assert id in Dialling(d.devices);
    } else {
      assert Dialling(d.devices) == {};
    }
  }

  lemma AbortDials(d: D.State, id: nat)
    ensures Dialling(D.AbortDial(d, id).devices) == Dialling(d.devices) - {id}
  {
    B.StartScanSame(D.ClearDial(D.Fail(d, id), id));
  }

  lemma DialDials(d: D.State, f: D.Found, throws: bool)
    ensures Dialling(D.Dial(d, f, throws).devices) <= Dialling(d.devices) + {f.id}
  {
    if throws {
      AbortDials(D.Dialled(d, f), f.id);
    }
  }

  /** A dial that times out is one less. */
  lemma TimeoutShrinks(d: D.State, t: nat)
    requires T.Book(d) && t in d.timers && d.timers[t].DialTimeout?
    ensures d.candidates == D.AbortDial(d, d.timers[t].id).candidates
    ensures Work(D.AbortDial(d, d.timers[t].id)) < Work(d)
  {
    var id := d.timers[t].id;
    assert T.Owned(d.timers, t, d.devices, d.dialTimer, d.scanTimer);
    AbortDials(d, id);
    O.AbortSame(d, id);
    assert id in Dialling(d.devices);
    SmallerSet(Dialling(d.devices) - {id}, Dialling(d.devices));
  }

  lemma SmallerSet<X>(a: set<X>, b: set<X>)
    requires a < b
    ensures |a| < |b|
  {
    assert |b - a| > 0;
    assert b == a + (b - a);
  }

  lemma OneMoreAtMost<X>(a: set<X>, b: set<X>, x: X)
    requires a <= b + {x}
    ensures |a| <= |b| + 1
  {
    assert b + {x} == a + (b + {x} - a);
  }

  /** A flush in an open window turns at most one candidate into a dial. */
  lemma FlushShrinks(max: nat, d: D.State, throws: bool)
    requires T.Book(d) && D.WindowOpen(d) && d.candidates != []
    ensures Work(D.OnFlush(max, d, throws)) < Work(d)
  {
    var r, fit := D.OnFlush(max, d, throws), O.Fit(max, d, D.SortStrongest(d.candidates));
    O.SortsHeld(max, d);
    O.FlushDoes(max, d, throws);
    if fit != [] {
      DialDials(D.TakeCandidates(d), fit[0], throws);
      OneMoreAtMost(Dialling(r.devices), Dialling(d.devices), fit[0].id);
    }
  }

  /** Nothing but a discovery adds to the work, and each dial or flush timer that fires takes from
      it, but for one flush whose window a dial has closed again. */
  lemma StepWanes(max: nat, d: D.State, e: D.Event)
    requires T.Book(d) && B.Memory(d) && !e.Discover?
    ensures var r := D.Step(max, d, e); Work(r) + O.Debt(r) + Fires(d, e) <= Work(d) + O.Debt(d)
  {
    if e.FlushFires? {
      if D.Enabled(d, e) {
        FlushWanes(max, d, e.throws);
      }
    } else {
      O.OthersSpare(max, d, e);
      FewerIsLess(d.devices, D.Step(max, d, e).devices);
      if e.DialTimesOut? && D.Enabled(d, e) {
        T.TimeoutIsAbort(d, e.timer);
        TimeoutShrinks(d, e.timer);
      }
    }
  }

  /** Whether a dial or flush timer fires. */
  function Fires(d: D.State, e: D.Event): nat {
    if (e.DialTimesOut? || e.FlushFires?) && D.Enabled(d, e) then 1 else 0
  }

  lemma FewerIsLess(before: map<nat, D.Device>, after: map<nat, D.Device>)
    requires B.FewerDials(before, after)
    ensures |Dialling(after)| <= |Dialling(before)|
  {
    assert Dialling(before) == Dialling(after) + (Dialling(before) - Dialling(after));
  }

  lemma FlushWanes(max: nat, d: D.State, throws: bool)
    requires T.Book(d) && D.Enabled(d, D.FlushFires(throws))
    ensures var r := D.OnFlush(max, d, throws); Work(r) + O.Debt(r) + 1 <= Work(d) + O.Debt(d)
  {
    O.FlushPrompt(max, d, throws);
    if D.WindowOpen(d) {
      FlushShrinks(max, d, throws);
    } else {
      O.FlushClosed(max, d, throws);
    }
  }

  /** Dial and flush timers fired in a run. */
  function Fired(max: nat, d: D.State, events: seq<D.Event>): nat {
    if events == [] then 0
    else
      var front := events[..|events| - 1];
      Fired(max, d, front) + Fires(D.Run(max, d, front), events[|events| - 1])
  }

  /** Main: over any run without new discoveries, the dial and flush timers that fired and the work
      left never exceed the work there was, and one flush more if a dial had overtaken it. So a
      refusal's cause runs out: after that many firings the node refuses nobody by the tie-break. */
  lemma {:induction false} TimersWane(max: nat, d: D.State, events: seq<D.Event>)
    requires T.Book(d) && T.Quiet(d) && B.Memory(d) && O.NoDiscovery(events)
    ensures var r := D.Run(max, d, events);
            && T.Book(r) && T.Quiet(r) && B.Memory(r)
            && Fired(max, d, events) + Work(r) + O.Debt(r) <= Work(d) + O.Debt(d)
            && (Fired(max, d, events) >= Work(d) + O.Debt(d) ==> !D.Busy(r) && O.Prompt(r))
  {
    if events != [] {
      var front, e := events[..|events| - 1], events[|events| - 1];
      var m := D.Run(max, d, front);
      TimersWane(max, d, front);
      T.StepBook(max, m, e);
      T.StepQuiet(max, m, e);
      B.StepMoves(max, m, e);
      StepWanes(max, m, e);
    }
    BusyIsWork(D.Run(max, d, events));
  }

  /** And while there is work, some dial or flush timer is armed to fire: a busy node never waits
      for nothing. */
  lemma WorkIsArmed(d: D.State)
    requires T.Book(d)
    ensures Work(d) > 0 <==> DialArmed(d)
  {
    BusyIsWork(d);
    T.BusyHasTimer(d);
  }

  /** A node with nothing left to dial refuses nobody by the tie-break. */
  lemma IdleRefusesNobody(cfg: S.Config, s: S.State, d: D.State, open: KeyPayload, allow: bool)
    requires Work(d) == 0
    ensures !S.Judge(cfg, s, open, allow, D.Busy(d)).TieBreak?
  {
    BusyIsWork(d);
  }
}
