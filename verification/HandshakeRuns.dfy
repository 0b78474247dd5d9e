/** Two runs in which a session is bound at both ends, one on each pipe. */
module HandshakeRuns {
  import opened Options
  import opened Bytes
  import opened Frames
  import opened Handshake
  import S = Server
  import SL = ServerLaws

  lemma RunThen(cfgs: seq<S.Config>, events: seq<Event>, e: Event)
    ensures Run(cfgs, events + [e]) == Step(cfgs, Run(cfgs, events), e)
  {
    assert (events + [e])[..|events|] == events;
  }

  /** Two nodes that may link, with the same pipe. */
  predicate Pair(a: S.Config, b: S.Config) {
    |a.key| == KEY_LEN && |b.key| == KEY_LEN && a.key != b.key && a.l2cap == b.l2cap && b.maxInbound > 0
  }

  /** The central's OPEN reaches a server with room, its HELLO comes back: the session is listed, and the
      central binds on gatt or opens a channel on l2cap. */
  lemma Greets(a: S.Config, b: S.Config, id: Sid, s: Net) returns (r: Net)
    requires Pair(a, b) && |s.servers| == 2 && s.centrals == map[] && s.writes == {} && s.written == map[]
    requires var v := s.servers[1];
             && v.phase.Running? && !v.closing && v.sessions == map[] && v.out == [] && S.ListenerOk(v)
             && v.channels == map[] && (a.l2cap ==> v.psm.Some?)
    ensures r == Step([a, b], Step([a, b], Step([a, b], s, Begin(id, 0, 1)), Written(1, OpenPacket(a, id), true, false)), Notified(id, 0, true, false))
    ensures |r.servers| == 2 && id in r.servers[1].sessions && r.servers[1].channels == map[]
    ensures r.servers[1].phase.Running? && !r.servers[1].closing && r.written == map[]
    ensures r.servers[1].sessions[id].stream.None? == a.l2cap
    ensures id in r.centrals && r.centrals[id] == Central(0, 1, if a.l2cap then Opening else Bound, Some(Answer(b.key, true)), None)
  {
    var n := Opens(a, b, id, s);
    r := Step([a, b], n, Notified(id, 0, true, false));
    HelloTaken(a, b, n, id, s.servers[1]);
    assert r.servers == n.servers && r.written == n.written;
  }

  lemma HelloTaken(a: S.Config, b: S.Config, n: Net, id: Sid, v: S.State)
    requires Pair(a, b) && |n.servers| == 2 && n.centrals == map[id := Central(0, 1, Probing, None, None)]
    requires v.out == [] && SL.Greeted(b, v, n.servers[1], id, a.key) && (a.l2cap ==> v.psm.Some?)
    ensures Step([a, b], n, Notified(id, 0, true, false))
         == n.(centrals := map[id := Central(0, 1, if a.l2cap then Opening else Bound, Some(Answer(b.key, true)), None)])
  {
    HelloFits(a, b, v, n.servers[1], id);
    HelloAnswered([a, b], n, id, 0, true, false);
    var x := Central(0, 1, if a.l2cap then Opening else Bound, Some(Answer(b.key, true)), None);
    assert n.centrals[id := x] == map[id := x];
  }

  lemma HelloFits(a: S.Config, b: S.Config, v: S.State, w: S.State, id: Sid)
    requires Pair(a, b) && v.out == [] && SL.Greeted(b, v, w, id, a.key) && (a.l2cap ==> v.psm.Some?)
    ensures |w.out| == 1 && w.out[0].kind == TYPE_HELLO && w.out[0].id == id
    ensures var hello := DecodeKey(w.out[0].payload);
            hello.key == b.key && (hello.flags as int % 2 == 1) == a.l2cap && (a.l2cap ==> hello.psm.Some?)
  {}

  lemma WrittenRuns(cfgs: seq<S.Config>, s: Net, p: Packet)
    requires |cfgs| == 2 && |s.servers| == 2 && Write(1, p) in s.writes
    ensures Step(cfgs, s, Written(1, p, true, false)) == ServerStep(cfgs, s, 1, S.WriteRequest(Wire(p), true, false))
  {}

  lemma Opens(a: S.Config, b: S.Config, id: Sid, s: Net) returns (n: Net)
    requires Pair(a, b) && |s.servers| == 2 && s.centrals == map[] && s.writes == {} && s.written == map[]
    requires var v := s.servers[1];
             && v.phase.Running? && !v.closing && v.sessions == map[] && v.out == [] && S.ListenerOk(v)
             && v.channels == map[] && (a.l2cap ==> v.psm.Some?)
    ensures n == Step([a, b], Step([a, b], s, Begin(id, 0, 1)), Written(1, OpenPacket(a, id), true, false))
    ensures |n.servers| == 2 && n.centrals == map[id := Central(0, 1, Probing, None, None)] && n.written == map[]
    ensures var v, w := s.servers[1], n.servers[1];
            SL.Greeted(b, v, w, id, a.key) && w.phase == v.phase && w.closing == v.closing && w.channels == v.channels
  {
    var open := OpenPacket(a, id);
    var m := Step([a, b], s, Begin(id, 0, 1));
    assert m == s.(centrals := map[id := Central(0, 1, Probing, None, None)], writes := {Write(1, open)});
    OpenTaken(a, b, id, s.servers[1]);
    WrittenRuns([a, b], m, open);
    n := ServerStep([a, b], m, 1, S.WriteRequest(Wire(open), true, false));
  }

  lemma OpenTaken(a: S.Config, b: S.Config, id: Sid, v: S.State)
    requires Pair(a, b) && v.phase.Running? && v.sessions == map[] && v.out == [] && S.ListenerOk(v) && (a.l2cap ==> v.psm.Some?)
    ensures var r := S.Step(b, v, S.WriteRequest(Wire(OpenPacket(a, id)), true, false));
            && SL.Greeted(b, v, r, id, a.key) && r.phase == v.phase && r.closing == v.closing && r.channels == v.channels
  {
    var open := OpenPacket(a, id);
    WireRoundTrip(open);
    KeyRoundTrip(a.key, S.Capabilities(a.l2cap), None);
    SL.OpenAnswered(b, v, Wire(open), open, true, false);
    FrameKeeps(b, v, open);
  }

  lemma FrameKeeps(b: S.Config, v: S.State, p: Packet)
    requires p.id !in v.sessions && v.phase.Running? && p.kind == TYPE_OPEN
    ensures var r := S.Step(b, v, S.WriteRequest(Wire(p), true, false));
            r.phase == v.phase && r.closing == v.closing && r.channels == v.channels
  {
    WireRoundTrip(p);
    AcceptKeeps(b, v, p);
  }

  lemma AcceptKeeps(b: S.Config, v: S.State, p: Packet)
    requires p.id !in v.sessions
    ensures var r := S.OnOpen(b, v, p, true, false);
            r.phase == v.phase && r.closing == v.closing && r.channels == v.channels
  {
    if S.Judge(b, v, DecodeKey(p.payload), true, false).Accept? {
      BindKeeps(b, S.Insert(b, v, p.id, DecodeKey(p.payload).key), p.id);
    }
  }

  lemma BindKeeps(b: S.Config, v: S.State, id: Sid)
    requires id in v.sessions
    ensures var r := S.Bind(b, v, id); r.phase == v.phase && r.closing == v.closing && r.channels == v.channels
  {
    SL.CycleSpares(b, S.Attach(v, id));
  }

  /** On gatt the three steps bind both ends. */
  lemma GattRun(a: S.Config, b: S.Config, id: Sid)
    requires Pair(a, b) && !a.l2cap
    ensures var s := Run([a, b], [Begin(id, 0, 1)] + [Written(1, OpenPacket(a, id), true, false)] + [Notified(id, 0, true, false)]);
            && id in s.centrals && s.centrals[id].phase.Bound?
            && |s.servers| == 2 && id in s.servers[1].sessions && s.servers[1].sessions[id].stream.Some?
  {
    var cfgs := [a, b];
    RunThen(cfgs, [], Begin(id, 0, 1));
    RunThen(cfgs, [Begin(id, 0, 1)], Written(1, OpenPacket(a, id), true, false));
    RunThen(cfgs, [Begin(id, 0, 1)] + [Written(1, OpenPacket(a, id), true, false)], Notified(id, 0, true, false));
    assert [] + [Begin(id, 0, 1)] == [Begin(id, 0, 1)];
    var r := Greets(a, b, id, Run(cfgs, []));
  }

  /** On l2cap the central then opens its channel, whose first bytes the server reads. */
  lemma ChannelBinds(cfgs: seq<S.Config>, s: Net, id: Sid) returns (r: Net)
    requires |cfgs| == 2 && |s.servers| == 2 && id in s.centrals && s.centrals[id].phase.Opening? && s.written == map[]
    requires var v := s.servers[1];
             v.phase.Running? && !v.closing && v.channels == map[] && id in v.sessions && v.sessions[id].stream.None?
    ensures r == Step(cfgs, Step(cfgs, Step(cfgs, s, ChannelOpens(id, 0)), ServerDoes(1, S.ChannelOpen(0))), ChannelRead(1, 0, [Raw(id)]))
    ensures id in r.centrals && r.centrals[id].phase.Bound? && r.centrals[id].channel == Some(0)
    ensures |r.servers| == 2 && 0 in r.servers[1].channels && r.servers[1].channels[0] == S.Channel.Bound(id)
  {
    var n := ChannelWaits(cfgs, s, id);
    r := Step(cfgs, n, ChannelRead(1, 0, [Raw(id)]));
    IdReads(id);
    ReadBinds(cfgs[1], n.servers[1], id);
    assert r == ServerStep(cfgs, n, 1, S.PreambleRead(0, Some(id)));
  }

  lemma ChannelWaits(cfgs: seq<S.Config>, s: Net, id: Sid) returns (n: Net)
    requires |cfgs| == 2 && |s.servers| == 2 && id in s.centrals && s.centrals[id].phase.Opening? && s.written == map[]
    requires var v := s.servers[1]; v.phase.Running? && !v.closing && v.channels == map[]
    ensures n == Step(cfgs, Step(cfgs, s, ChannelOpens(id, 0)), ServerDoes(1, S.ChannelOpen(0)))
    ensures n.servers == s.servers[1 := s.servers[1].(channels := map[0 := S.Awaiting])] && n.written == map[0 := Raw(id)]
    ensures n.centrals == s.centrals[id := s.centrals[id].(phase := Bound, channel := Some(0))]
  {
    n := Step(cfgs, Step(cfgs, s, ChannelOpens(id, 0)), ServerDoes(1, S.ChannelOpen(0)));
  }

  lemma IdReads(id: Sid)
    ensures IdRead([Raw(id)]) == Some(id) && Flatten([Raw(id)]) == Raw(id)
  {
    FlattenAppend([], Raw(id));
    assert [] + [Raw(id)] == [Raw(id)] && [] + Raw(id) == Raw(id);
    RawIs(id);
  }

  lemma ReadBinds(cfg: S.Config, v: S.State, id: Sid)
    requires v.phase.Running? && !v.closing && v.channels == map[0 := S.Awaiting] && id in v.sessions && v.sessions[id].stream.None?
    ensures var r := S.Step(cfg, v, S.PreambleRead(0, Some(id))); 0 in r.channels && r.channels[0] == S.Channel.Bound(id)
  {
    assert S.IsPending(v, id);
    BindKeeps(cfg, v, id);
  }

  lemma RawIs(id: Sid)
    ensures SidOf(Raw(id)) == id && Raw(id)[..SID_LEN] == Raw(id)
  {}

  function Calling(a: S.Config, id: Sid): seq<Event> {
    [ServerDoes(1, S.ChannelPublished(1))] + [Begin(id, 0, 1)] + [Written(1, OpenPacket(a, id), true, false)] + [Notified(id, 0, true, false)]
  }

  /** On l2cap seven steps bind both ends of the same channel. */
  lemma L2capRun(a: S.Config, b: S.Config, id: Sid)
    requires Pair(a, b) && a.l2cap
    ensures var s := Run([a, b], Calling(a, id) + [ChannelOpens(id, 0)] + [ServerDoes(1, S.ChannelOpen(0))] + [ChannelRead(1, 0, [Raw(id)])]);
            && id in s.centrals && s.centrals[id].phase.Bound? && s.centrals[id].channel == Some(0)
            && |s.servers| == 2 && 0 in s.servers[1].channels && s.servers[1].channels[0] == S.Channel.Bound(id)
  {
    var cfgs := [a, b];
    Published(a, b, id);
    var s := Run(cfgs, Calling(a, id));
    RunThen(cfgs, Calling(a, id), ChannelOpens(id, 0));
    RunThen(cfgs, Calling(a, id) + [ChannelOpens(id, 0)], ServerDoes(1, S.ChannelOpen(0)));
    RunThen(cfgs, Calling(a, id) + [ChannelOpens(id, 0)] + [ServerDoes(1, S.ChannelOpen(0))], ChannelRead(1, 0, [Raw(id)]));
    var r := ChannelBinds(cfgs, s, id);
  }

  lemma Published(a: S.Config, b: S.Config, id: Sid)
    requires Pair(a, b) && a.l2cap
    ensures var s := Run([a, b], Calling(a, id));
            && id in s.centrals && s.centrals[id].phase.Opening? && s.written == map[] && |s.servers| == 2
            && var v := s.servers[1];
               v.phase.Running? && !v.closing && v.channels == map[] && id in v.sessions && v.sessions[id].stream.None?
  {
    var cfgs, up := [a, b], [ServerDoes(1, S.ChannelPublished(1))];
    RunThen(cfgs, [], ServerDoes(1, S.ChannelPublished(1)));
    assert [] + up == up;
    RunThen(cfgs, up, Begin(id, 0, 1));
    RunThen(cfgs, up + [Begin(id, 0, 1)], Written(1, OpenPacket(a, id), true, false));
    RunThen(cfgs, up + [Begin(id, 0, 1)] + [Written(1, OpenPacket(a, id), true, false)], Notified(id, 0, true, false));
    PsmUp(cfgs);
    var r := Greets(a, b, id, Run(cfgs, up));
  }

  lemma PsmUp(cfgs: seq<S.Config>)
    requires |cfgs| == 2
    ensures var s := Step(cfgs, Run(cfgs, []), ServerDoes(1, S.ChannelPublished(1)));
            && |s.servers| == 2 && s.servers[1] == S.INIT.(psm := Some(1))
            && s.centrals == map[] && s.writes == {} && s.written == map[]
  {
    var s := Run(cfgs, []);
    assert s.servers[1] == S.INIT;
    assert S.Step(cfgs[1], S.INIT, S.ChannelPublished(1)) == S.INIT.(psm := Some(1));
    assert Step(cfgs, s, ServerDoes(1, S.ChannelPublished(1))) == ServerStep(cfgs, s, 1, S.ChannelPublished(1));
  }
}
