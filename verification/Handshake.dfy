/** The OPEN/HELLO handshake between n nodes. Frames once sent may arrive late, repeatedly and in
    any order; servers run Server, and a central follows _onCentralNotify and openCentral. */
module Handshake {
  import opened Options
  import opened Bytes
  import opened Frames
  import P = Preamble
  import S = Server

  /** Opening: an l2cap channel is on its way. Over: the session was ended or refused, and `kept` says
      whether the physical link was left up, as the peer's own dial back may ride it. */
  datatype Phase = Probing | Opening | Bound | Over(kept: bool)

  /** A key taken from a frame, with what shouldConnect answered for it then. */
  datatype Answer = Answer(key: seq<byte>, allowed: bool)

  /** A central's session on node `node` with the server of `peer`. `hello`: history, the key it
      last accepted. `channel`: the l2cap channel it wrote its id to. */
  datatype Central = Central(node: nat, peer: nat, phase: Phase, hello: Option<Answer>, channel: Option<nat>)

  /** A frame written to a node's characteristic. */
  datatype Write = Write(to: nat, packet: Packet)

  /** History: the server of a node let a session in, for the key its OPEN carried. */
  datatype Admission = Admission(server: nat, id: Sid, opener: Answer)

  /** Session ids are random: none is drawn twice. `written`: what centrals wrote to channels. */
  datatype Net = Net(
    servers: seq<S.State>,
    centrals: map<Sid, Central>,
    writes: set<Write>,
    written: map<nat, seq<byte>>,
    admissions: set<Admission>)

  /** Notified: the central of session `id` gets the k-th frame its server ever notified.
      `linked`: it is already linked to that key. Chunks: what a server read from a channel before
      it matched it or gave up. */
  datatype Event =
    | Begin(id: Sid, node: nat, peer: nat)
    | Sends(id: Sid, kind: byte, payload: seq<byte>)
    | Notified(id: Sid, k: nat, allow: bool, linked: bool)
    | ChannelOpens(id: Sid, channel: nat)
    | OpenFails(id: Sid)
    | CentralEnds(id: Sid)
    | Streams(channel: nat, data: seq<byte>)
    | Written(server: nat, packet: Packet, allow: bool, busy: bool)
    | ChannelRead(server: nat, channel: nat, chunks: seq<seq<byte>>)
    | ServerDoes(server: nat, event: S.Event)

  function OpenPacket(cfg: S.Config, id: Sid): Packet {
    Packet(TYPE_OPEN, id, EncodeKey(cfg.key, S.Capabilities(cfg.l2cap), None))
  }

  predicate Enabled(cfgs: seq<S.Config>, s: Net, e: Event) {
    match e
    case Begin(id, node, peer) => id !in s.centrals && node < |cfgs| && peer < |cfgs| && node != peer
    case Sends(id, kind, _) => id in s.centrals && (kind == TYPE_DATA || kind == TYPE_CLOSE)
    case Notified(id, k, _, _) =>
      id in s.centrals && s.centrals[id].peer < |s.servers| && k < |s.servers[s.centrals[id].peer].out|
    case ChannelOpens(id, channel) => id in s.centrals && s.centrals[id].phase.Opening? && channel !in s.written
    case OpenFails(id) => id in s.centrals && s.centrals[id].phase.Opening?
    case CentralEnds(id) => id in s.centrals
    case Streams(channel, _) => channel in s.written
    case Written(server, packet, _, _) => server < |cfgs| && Write(server, packet) in s.writes
    case ChannelRead(server, channel, chunks) => server < |cfgs| && channel in s.written && Flatten(chunks) <= s.written[channel]
    case ServerDoes(server, event) => server < |cfgs| && !event.WriteRequest? && !event.PreambleRead?
  }

  // ─── the central ────────────────────────────────────────────────────────

  /** _onCentralNotify for a frame of this session. */
  function OnNotify(cfg: S.Config, c: Central, id: Sid, buf: seq<byte>, allow: bool, linked: bool): Central {
    var f := Unwire(buf);
    if c.phase.Over? || f.None? || f.value.id != id then c
    else if f.value.kind == TYPE_HELLO then OnHello(cfg, c, DecodeKey(f.value.payload), allow, linked)
    else if f.value.kind == TYPE_CLOSE then c.(phase := Over(c.phase.Bound? || DecodeReason(f.value.payload) != REASON_FINAL))
    else c
  }

  function OnHello(cfg: S.Config, c: Central, hello: KeyPayload, allow: bool, linked: bool): Central {
    if !c.phase.Probing? then c
    else if !S.Accepts(hello.key, cfg.key, allow) then c.(phase := Over(false))
    else if linked then c.(phase := Over(true))
    else if !S.PipesMatch(hello.flags, cfg.l2cap) || (cfg.l2cap && hello.psm.None?) then c.(phase := Over(false))
    else c.(phase := if cfg.l2cap then Opening else Bound, hello := Some(Answer(hello.key, allow)))
  }

  // ─── the server ─────────────────────────────────────────────────────────

  /** The session id readIdPreamble resolves with. */
  function IdRead(chunks: seq<seq<byte>>): Option<Sid> {
    var all := Flatten(chunks);
    if |all| < SID_LEN then None else Some(SidOf(all[..SID_LEN]))
  }

  /** That is what the reader of Preamble finds, however the bytes were cut. */
  lemma IdReadIsPreamble(chunks: seq<seq<byte>>)
    ensures IdRead(chunks).None? <==> P.Read(chunks).Waiting?
    ensures IdRead(chunks).Some? ==> P.Read(chunks).id == Hex(IdRead(chunks).value)
  {
    P.ReadIgnoresChunking(chunks);
  }

  function ServerEvent(e: Event): S.Event
    requires e.Written? || e.ChannelRead? || e.ServerDoes?
  {
    match e
    case Written(_, packet, allow, busy) => S.WriteRequest(Wire(packet), allow, busy)
    case ChannelRead(_, channel, chunks) => S.PreambleRead(channel, IdRead(chunks))
    case ServerDoes(_, event) => event
  }

  /** The OPEN a server event accepts. */
  function Admits(cfg: S.Config, s: S.State, e: S.Event): Option<Packet> {
    if !e.WriteRequest? || !s.phase.Running? then None
    else
      var f := Unwire(e.bytes);
      if f.None? || f.value.kind != TYPE_OPEN || f.value.id in s.sessions then None
      else if S.Judge(cfg, s, DecodeKey(f.value.payload), e.allow, e.busy).Accept? then f else None
  }

  ghost function ServerStep(cfgs: seq<S.Config>, s: Net, j: nat, e: S.Event): Net
    requires j < |cfgs| && j < |s.servers|
  {
    var open := Admits(cfgs[j], s.servers[j], e);
    s.(servers := s.servers[j := S.Step(cfgs[j], s.servers[j], e)],
       admissions := s.admissions + if open.None? then {} else {Admission(j, open.value.id, Answer(DecodeKey(open.value.payload).key, e.allow))})
  }

  // ─── steps ──────────────────────────────────────────────────────────────

  function SetPhase(s: Net, id: Sid, phase: Phase): Net
    requires id in s.centrals
  {
    s.(centrals := s.centrals[id := s.centrals[id].(phase := phase)])
  }

  ghost function Apply(cfgs: seq<S.Config>, s: Net, e: Event): Net
    requires Enabled(cfgs, s, e) && |s.servers| == |cfgs|
  {
    match e
    case Begin(id, node, peer) =>
      s.(centrals := s.centrals[id := Central(node, peer, Probing, None, None)],
         writes := s.writes + {Write(peer, OpenPacket(cfgs[node], id))})
    case Sends(id, kind, payload) => s.(writes := s.writes + {Write(s.centrals[id].peer, Packet(kind, id, payload))})
    case Notified(id, k, allow, linked) => Notify(cfgs, s, id, s.servers[s.centrals[id].peer].out[k], allow, linked)
    case ChannelOpens(id, channel) =>
      s.(centrals := s.centrals[id := s.centrals[id].(phase := Bound, channel := Some(channel))],
         written := s.written[channel := Raw(id)])
    case OpenFails(id) => SetPhase(s, id, Probing)
    case CentralEnds(id) => SetPhase(s, id, Over(false))
    case Streams(channel, data) => s.(written := s.written[channel := s.written[channel] + data])
    case _ => ServerStep(cfgs, s, e.server, ServerEvent(e))
  }

  function Notify(cfgs: seq<S.Config>, s: Net, id: Sid, packet: Packet, allow: bool, linked: bool): Net
    requires id in s.centrals
  {
    var c := s.centrals[id];
    if c.node >= |cfgs| then s
    else s.(centrals := s.centrals[id := OnNotify(cfgs[c.node], c, id, Wire(packet), allow, linked)])
  }

  ghost function Step(cfgs: seq<S.Config>, s: Net, e: Event): Net
    requires |s.servers| == |cfgs|
  {
    if Enabled(cfgs, s, e) then Apply(cfgs, s, e) else s
  }

  ghost function Run(cfgs: seq<S.Config>, events: seq<Event>): (s: Net)
    ensures |s.servers| == |cfgs|
  {
    if events == [] then Net(seq(|cfgs|, _ => S.INIT), map[], {}, map[], {})
    else Step(cfgs, Run(cfgs, events[..|events| - 1]), events[|events| - 1])
  }

  // ─── what one server step can do ────────────────────────────────────────

  lemma RemoveKeys(s: S.State, id: Sid)
    requires id in s.sessions
    ensures S.Remove(s, id).sessions.Keys <= s.sessions.Keys && S.Remove(s, id).channels == s.channels
    ensures S.Attach(s, id).sessions.Keys == s.sessions.Keys && S.Attach(s, id).channels == s.channels
  {}

  lemma ReapKeys(cfg: S.Config, s: S.State, id: Sid)
    requires id in s.sessions
    ensures S.Reap(cfg, s, id).sessions.Keys <= s.sessions.Keys && S.Reap(cfg, s, id).channels == s.channels
    ensures S.Bind(cfg, s, id).sessions.Keys == s.sessions.Keys && S.Bind(cfg, s, id).channels == s.channels
    ensures S.CloseSession(cfg, s, id).sessions.Keys <= s.sessions.Keys && S.CloseSession(cfg, s, id).channels == s.channels
  {
    RemoveKeys(s, id);
  }

  /** Every HELLO was for an OPEN accepted in the same step, which named its session. */
  predicate Greets(cfg: S.Config, s: S.State, r: S.State, open: Option<Packet>) {
    && s.out <= r.out && |r.out| <= |s.out| + 1
    && (|r.out| > |s.out| && r.out[|s.out|].kind == TYPE_HELLO ==>
          open.Some? && r.out[|s.out|] == Packet(TYPE_HELLO, open.value.id, S.HelloPayload(cfg, s.psm)))
  }

  /** Sessions come only from accepted OPENs, channels are untouched. */
  predicate Grows(cfg: S.Config, s: S.State, r: S.State, open: Option<Packet>) {
    && r.sessions.Keys <= s.sessions.Keys + (if open.Some? then {open.value.id} else {})
    && r.channels == s.channels
  }

  lemma OpenGrows(cfg: S.Config, s: S.State, f: Packet, allow: bool, busy: bool)
    requires f.id !in s.sessions
    ensures var open := if S.Judge(cfg, s, DecodeKey(f.payload), allow, busy).Accept? then Some(f) else None;
            Grows(cfg, s, S.OnOpen(cfg, s, f, allow, busy), open) && Greets(cfg, s, S.OnOpen(cfg, s, f, allow, busy), open)
  {
    var open := DecodeKey(f.payload);
    if S.Judge(cfg, s, open, allow, busy).Accept? {
      var r := S.Insert(cfg, s, f.id, open.key);
      ReapKeys(cfg, r, f.id);
      S.BindOut(cfg, r, f.id);
    }
  }

  lemma CloseGreets(cfg: S.Config, s: S.State, id: Sid)
    requires id in s.sessions
    ensures Greets(cfg, s, S.Reap(cfg, s, id), None) && Greets(cfg, s, S.CloseSession(cfg, s, id), None)
  {
    S.BindOut(cfg, s, id);
  }

  /** A frame of a session in the table, */
  lemma KnownGrows(cfg: S.Config, s: S.State, buf: seq<byte>, p: Packet, allow: bool, busy: bool)
    requires Unwire(buf) == Some(p) && p.id in s.sessions
    ensures var r := S.OnFrame(cfg, s, buf, allow, busy);
            Grows(cfg, s, r, None) && Greets(cfg, s, r, None) && Admits(cfg, s, S.WriteRequest(buf, allow, busy)).None?
  {
    ReapKeys(cfg, s, p.id);
    CloseGreets(cfg, s, p.id);
  }

  /** and any other frame. */
  lemma UnknownGrows(cfg: S.Config, s: S.State, buf: seq<byte>, p: Packet, allow: bool, busy: bool)
    requires s.phase.Running? && Unwire(buf) == Some(p) && p.id !in s.sessions
    ensures var open, r := Admits(cfg, s, S.WriteRequest(buf, allow, busy)), S.OnFrame(cfg, s, buf, allow, busy);
            Grows(cfg, s, r, open) && Greets(cfg, s, r, open) && (open.Some? ==> open.value == p && p.kind == TYPE_OPEN)
  {
    if p.kind == TYPE_OPEN {
      OpenGrows(cfg, s, p, allow, busy);
    }
  }

  lemma FrameGrows(cfg: S.Config, s: S.State, p: Packet, allow: bool, busy: bool)
    requires s.phase.Running?
    ensures var e := S.WriteRequest(Wire(p), allow, busy);
            var open, r := Admits(cfg, s, e), S.OnFrame(cfg, s, Wire(p), allow, busy);
            Grows(cfg, s, r, open) && Greets(cfg, s, r, open) && (open.Some? ==> open.value == p && p.kind == TYPE_OPEN)
  {
    WireRoundTrip(p);
    if p.id in s.sessions {
      KnownGrows(cfg, s, Wire(p), p, allow, busy);
    } else {
      UnknownGrows(cfg, s, Wire(p), p, allow, busy);
    }
  }

  /** A channel becomes a session's only by that session's id being read from it. */
  ghost predicate Claims(s: S.State, r: S.State, e: S.Event) {
    forall ch | ch in r.channels && r.channels[ch].Bound? ::
      (ch in s.channels && s.channels[ch] == r.channels[ch]) || e == S.PreambleRead(ch, Some(r.channels[ch].id))
  }

  lemma PreambleGrows(cfg: S.Config, s: S.State, channel: nat, id: Option<Sid>)
    ensures var r := S.OnPreamble(cfg, s, channel, id);
            r.sessions.Keys <= s.sessions.Keys && Greets(cfg, s, r, None) && Claims(s, r, S.PreambleRead(channel, id))
  {
    if id.Some? && S.IsPending(s, id.value) {
      ReapKeys(cfg, s, id.value);
      S.BindOut(cfg, s, id.value);
    }
  }

  lemma OtherGrows(cfg: S.Config, s: S.State, e: S.Event)
    requires S.Enabled(s, e) && !e.WriteRequest? && !e.PreambleRead?
    ensures var r := S.Apply(cfg, s, e); r.sessions.Keys <= s.sessions.Keys && Greets(cfg, s, r, None) && Claims(s, r, e)
  {
    match e
    case StreamClosed(stream) =>
      var q := s.(streams := s.streams - {stream});
      if s.streams[stream] in s.sessions {
        ReapKeys(cfg, q, s.streams[stream]);
        CloseGreets(cfg, q, s.streams[stream]);
      }
    case _ =>
  }

  lemma StepGrows(cfg: S.Config, s: S.State, e: S.Event)
    requires e.WriteRequest? ==> exists p :: e.bytes == Wire(p)
    ensures var open, r := Admits(cfg, s, e), S.Step(cfg, s, e);
            && r.sessions.Keys <= s.sessions.Keys + (if open.Some? then {open.value.id} else {})
            && Greets(cfg, s, r, open) && Claims(s, r, e)
            && (open.Some? ==> open.value.kind == TYPE_OPEN && e.bytes == Wire(open.value))
  {
    match e
    case WriteRequest(bytes, allow, busy) =>
      if s.phase.Running? {
        var p :| bytes == Wire(p);
        FrameGrows(cfg, s, p, allow, busy);
      }
    case PreambleRead(channel, id) => if S.Enabled(s, e) { PreambleGrows(cfg, s, channel, id); }
    case _ => if S.Enabled(s, e) { OtherGrows(cfg, s, e); }
  }

  // ─── the invariant ──────────────────────────────────────────────────────

  ghost predicate ValidKeys(cfgs: seq<S.Config>) {
    forall i | 0 <= i < |cfgs| :: |cfgs[i].key| == KEY_LEN
  }

  predicate Placed(cfgs: seq<S.Config>, s: Net, id: Sid) {
    id in s.centrals && s.centrals[id].node < |cfgs| && s.centrals[id].peer < |cfgs|
  }

  /** An OPEN is the one its session sent, to the server it dialled. */
  predicate WriteOk(cfgs: seq<S.Config>, s: Net, w: Write) {
    && Placed(cfgs, s, w.packet.id) && s.centrals[w.packet.id].peer == w.to
    && (w.packet.kind == TYPE_OPEN ==> w.packet == OpenPacket(cfgs[s.centrals[w.packet.id].node], w.packet.id))
  }

  /** Who was let in is a central's session with this server, whose key the server accepts and
      whose pipe is the server's. */
  predicate AdmissionOk(cfgs: seq<S.Config>, s: Net, a: Admission) {
    && Placed(cfgs, s, a.id) && s.centrals[a.id].peer == a.server
    && var own, server := cfgs[s.centrals[a.id].node], cfgs[a.server];
       a.opener.key == own.key && S.Accepts(own.key, server.key, a.opener.allowed) && own.l2cap == server.l2cap
  }

  predicate Admitted(cfgs: seq<S.Config>, s: Net, server: nat, id: Sid) {
    Placed(cfgs, s, id) && Admission(server, id, Answer(cfgs[s.centrals[id].node].key, true)) in s.admissions
  }

  predicate HelloOk(cfgs: seq<S.Config>, s: Net, server: nat, p: Packet)
    requires server < |cfgs|
  {
    p.kind == TYPE_HELLO ==>
      && Admitted(cfgs, s, server, p.id)
      && DecodeKey(p.payload).key == cfgs[server].key
  }

  ghost predicate ServerOk(cfgs: seq<S.Config>, s: Net, j: nat, server: S.State)
    requires j < |cfgs|
  {
    && (forall id | id in server.sessions :: Admitted(cfgs, s, j, id))
    && (forall k | 0 <= k < |server.out| :: HelloOk(cfgs, s, j, server.out[k]))
    && (forall ch | ch in server.channels :: ChannelOk(s, ch, server.channels[ch]))
  }

  predicate ChannelOk(s: Net, ch: nat, x: S.Channel) {
    x.Bound? ==> ch in s.written && Raw(x.id) <= s.written[ch]
  }

  /** A central that opens or has a stream was admitted and accepted the server's key. */
  predicate CentralOk(cfgs: seq<S.Config>, s: Net, id: Sid, c: Central) {
    && Placed(cfgs, s, id) && c.node < |cfgs| && c.peer < |cfgs|
    && (c.phase.Opening? || c.phase.Bound? ==>
          && Admitted(cfgs, s, c.peer, id) && c.hello == Some(Answer(cfgs[c.peer].key, true))
          && S.Accepts(cfgs[c.peer].key, cfgs[c.node].key, true))
    && (c.phase.Opening? ==> cfgs[c.node].l2cap)
    && (c.phase.Bound? ==> cfgs[c.node].l2cap == c.channel.Some?)
    && (c.channel.Some? ==> cfgs[c.node].l2cap && c.channel.value in s.written && Raw(id) <= s.written[c.channel.value])
  }

  ghost predicate Inv(cfgs: seq<S.Config>, s: Net) {
    && ValidKeys(cfgs) && |s.servers| == |cfgs|
    && (forall w | w in s.writes :: WriteOk(cfgs, s, w))
    && (forall a | a in s.admissions :: AdmissionOk(cfgs, s, a))
    && (forall j | 0 <= j < |cfgs| :: ServerOk(cfgs, s, j, s.servers[j]))
    && (forall id | id in s.centrals :: CentralOk(cfgs, s, id, s.centrals[id]))
  }

  /** What every step does: sessions keep their ends, histories grow. */
  ghost predicate Extends(s: Net, r: Net) {
    && (forall id | id in s.centrals :: SameEnds(s, r, id))
    && s.admissions <= r.admissions
    && (forall ch | ch in s.written :: ch in r.written && s.written[ch] <= r.written[ch])
  }

  predicate SameEnds(s: Net, r: Net, id: Sid)
    requires id in s.centrals
  {
    id in r.centrals && r.centrals[id].node == s.centrals[id].node && r.centrals[id].peer == s.centrals[id].peer
  }

  lemma ExtendServer(cfgs: seq<S.Config>, s: Net, r: Net, j: nat, server: S.State)
    requires Extends(s, r) && j < |cfgs| && ServerOk(cfgs, s, j, server)
    ensures ServerOk(cfgs, r, j, server)
  {
    forall id | id in server.sessions
      ensures Admitted(cfgs, r, j, id)
    {
      assert Admitted(cfgs, s, j, id) && SameEnds(s, r, id);
    }
    forall k | 0 <= k < |server.out|
      ensures HelloOk(cfgs, r, j, server.out[k])
    {
      assert HelloOk(cfgs, s, j, server.out[k]);
    }
    forall ch | ch in server.channels
      ensures ChannelOk(r, ch, server.channels[ch])
    {
      assert ChannelOk(s, ch, server.channels[ch]);
    }
  }

  lemma ExtendCentral(cfgs: seq<S.Config>, s: Net, r: Net, id: Sid, c: Central)
    requires Extends(s, r) && CentralOk(cfgs, s, id, c)
    ensures CentralOk(cfgs, r, id, c)
  {
    assert SameEnds(s, r, id);
  }

  /** The rest of the invariant follows the histories. */
  lemma ExtendHistory(cfgs: seq<S.Config>, s: Net, r: Net)
    requires Inv(cfgs, s) && Extends(s, r)
    ensures forall w | w in s.writes :: WriteOk(cfgs, r, w)
    ensures forall a | a in s.admissions :: AdmissionOk(cfgs, r, a)
  {
    forall w | w in s.writes
      ensures WriteOk(cfgs, r, w)
    {
      assert WriteOk(cfgs, s, w) && SameEnds(s, r, w.packet.id);
    }
    forall a | a in s.admissions
      ensures AdmissionOk(cfgs, r, a)
    {
      assert AdmissionOk(cfgs, s, a) && SameEnds(s, r, a.id);
    }
  }

  /** One central changed, servers not. */
  lemma CentralInv(cfgs: seq<S.Config>, s: Net, r: Net, id: Sid, c: Central)
    requires Inv(cfgs, s) && r.centrals == s.centrals[id := c] && r.servers == s.servers && r.admissions == s.admissions
    requires Extends(s, r) && CentralOk(cfgs, r, id, c)
    requires forall w | w in r.writes :: w in s.writes || WriteOk(cfgs, r, w)
    ensures Inv(cfgs, r)
  {
    ExtendHistory(cfgs, s, r);
    forall j | 0 <= j < |cfgs|
      ensures ServerOk(cfgs, r, j, r.servers[j])
    {
      ExtendServer(cfgs, s, r, j, s.servers[j]);
    }
    forall i | i in r.centrals
      ensures CentralOk(cfgs, r, i, r.centrals[i])
    {
      if i != id {
        ExtendCentral(cfgs, s, r, i, s.centrals[i]);
      }
    }
  }

  lemma BeginInv(cfgs: seq<S.Config>, s: Net, id: Sid, node: nat, peer: nat)
    requires Inv(cfgs, s) && Enabled(cfgs, s, Begin(id, node, peer))
    ensures Inv(cfgs, Step(cfgs, s, Begin(id, node, peer)))
  {
    CentralInv(cfgs, s, Step(cfgs, s, Begin(id, node, peer)), id, Central(node, peer, Probing, None, None));
  }

  lemma SendsInv(cfgs: seq<S.Config>, s: Net, id: Sid, kind: byte, payload: seq<byte>)
    requires Inv(cfgs, s) && Enabled(cfgs, s, Sends(id, kind, payload))
    ensures Inv(cfgs, Step(cfgs, s, Sends(id, kind, payload)))
  {
    var r := Step(cfgs, s, Sends(id, kind, payload));
    assert CentralOk(cfgs, s, id, s.centrals[id]);
    assert s.centrals[id := s.centrals[id]] == s.centrals;
    CentralInv(cfgs, s, r, id, s.centrals[id]);
  }

  /** A HELLO that binds a central comes from a server that admitted it. */
  lemma HelloBinds(cfgs: seq<S.Config>, s: Net, id: Sid, p: Packet, allow: bool, linked: bool)
    requires Inv(cfgs, s) && id in s.centrals && s.centrals[id].peer < |cfgs| && HelloOk(cfgs, s, s.centrals[id].peer, p)
    requires s.centrals[id].node < |cfgs|
    ensures var c := s.centrals[id]; CentralOk(cfgs, s, id, OnNotify(cfgs[c.node], c, id, Wire(p), allow, linked))
  {
    assert CentralOk(cfgs, s, id, s.centrals[id]);
    WireRoundTrip(p);
  }

  lemma NotifyInv(cfgs: seq<S.Config>, s: Net, id: Sid, k: nat, allow: bool, linked: bool)
    requires Inv(cfgs, s) && Enabled(cfgs, s, Notified(id, k, allow, linked))
    ensures Inv(cfgs, Step(cfgs, s, Notified(id, k, allow, linked)))
  {
    var c, r := s.centrals[id], Step(cfgs, s, Notified(id, k, allow, linked));
    var p := s.servers[c.peer].out[k];
    assert CentralOk(cfgs, s, id, c);
    assert ServerOk(cfgs, s, c.peer, s.servers[c.peer]);
    HelloBinds(cfgs, s, id, p, allow, linked);
    ExtendCentral(cfgs, s, r, id, r.centrals[id]);
    CentralInv(cfgs, s, r, id, r.centrals[id]);
  }

  lemma ChannelInv(cfgs: seq<S.Config>, s: Net, id: Sid, channel: nat)
    requires Inv(cfgs, s) && Enabled(cfgs, s, ChannelOpens(id, channel))
    ensures Inv(cfgs, Step(cfgs, s, ChannelOpens(id, channel)))
  {
    var r := Step(cfgs, s, ChannelOpens(id, channel));
    assert CentralOk(cfgs, s, id, s.centrals[id]);
    CentralInv(cfgs, s, r, id, r.centrals[id]);
  }

  lemma PhaseInv(cfgs: seq<S.Config>, s: Net, id: Sid, phase: Phase)
    requires Inv(cfgs, s) && id in s.centrals && (phase.Probing? || phase.Over?)
    ensures Inv(cfgs, SetPhase(s, id, phase))
  {
    var r := SetPhase(s, id, phase);
    assert CentralOk(cfgs, s, id, s.centrals[id]);
    CentralInv(cfgs, s, r, id, r.centrals[id]);
  }

  lemma StreamsInv(cfgs: seq<S.Config>, s: Net, channel: nat, data: seq<byte>)
    requires Inv(cfgs, s) && channel in s.written
    ensures Inv(cfgs, Step(cfgs, s, Streams(channel, data)))
  {
    var r := Step(cfgs, s, Streams(channel, data));
    ExtendHistory(cfgs, s, r);
    forall j | 0 <= j < |cfgs|
      ensures ServerOk(cfgs, r, j, r.servers[j])
    {
      ExtendServer(cfgs, s, r, j, s.servers[j]);
    }
    forall i | i in r.centrals
      ensures CentralOk(cfgs, r, i, r.centrals[i])
    {
      ExtendCentral(cfgs, s, r, i, s.centrals[i]);
    }
  }

  // ─── server steps ───────────────────────────────────────────────────────

  /** A server event of the net: frames written to it, ids read from its channels, or its own. */
  ghost predicate Possible(s: Net, j: nat, e: S.Event) {
    && (e.WriteRequest? ==> exists p :: e.bytes == Wire(p) && Write(j, p) in s.writes)
    && (e.PreambleRead? ==> e.id.Some? ==> e.channel in s.written && Raw(e.id.value) <= s.written[e.channel])
  }

  lemma EventPossible(cfgs: seq<S.Config>, s: Net, e: Event)
    requires Enabled(cfgs, s, e) && (e.Written? || e.ChannelRead? || e.ServerDoes?)
    ensures Possible(s, e.server, ServerEvent(e))
  {
    if e.ChannelRead? && IdRead(e.chunks).Some? {
      var all := Flatten(e.chunks);
      assert s.written[e.channel][..SID_LEN] == all[..SID_LEN];
      assert Raw(IdRead(e.chunks).value) == all[..SID_LEN];
    }
  }

  lemma AcceptMeans(cfg: S.Config, server: S.State, own: S.Config, id: Sid, allow: bool, busy: bool)
    requires |own.key| == KEY_LEN
    requires S.Judge(cfg, server, DecodeKey(OpenPacket(own, id).payload), allow, busy).Accept?
    ensures DecodeKey(OpenPacket(own, id).payload).key == own.key
    ensures allow && S.Accepts(own.key, cfg.key, allow) && own.l2cap == cfg.l2cap
  {
    KeyRoundTrip(own.key, S.Capabilities(own.l2cap), None);
  }

  /** An accepted OPEN admits the session it names, under its own key. */
  lemma AdmitOk(cfgs: seq<S.Config>, s: Net, j: nat, e: S.Event)
    requires Inv(cfgs, s) && j < |cfgs| && Possible(s, j, e) && Admits(cfgs[j], s.servers[j], e).Some?
    ensures var open := Admits(cfgs[j], s.servers[j], e).value;
            && Placed(cfgs, s, open.id) && DecodeKey(open.payload).key == cfgs[s.centrals[open.id].node].key
            && e.allow && AdmissionOk(cfgs, s, Admission(j, open.id, Answer(DecodeKey(open.payload).key, e.allow)))
  {
    var p :| e.bytes == Wire(p) && Write(j, p) in s.writes;
    WireRoundTrip(p);
    assert WriteOk(cfgs, s, Write(j, p));
    AcceptMeans(cfgs[j], s.servers[j], cfgs[s.centrals[p.id].node], p.id, e.allow, e.busy);
  }

  lemma SentOk(cfgs: seq<S.Config>, r: Net, j: nat, a: S.State, b: S.State, open: Option<Packet>)
    requires ValidKeys(cfgs) && j < |cfgs| && ServerOk(cfgs, r, j, a) && Greets(cfgs[j], a, b, open)
    requires open.Some? ==> Admitted(cfgs, r, j, open.value.id)
    ensures forall k | 0 <= k < |b.out| :: HelloOk(cfgs, r, j, b.out[k])
  {
    HelloKey(cfgs[j], a.psm);
    forall k | 0 <= k < |b.out|
      ensures HelloOk(cfgs, r, j, b.out[k])
    {
      if k < |a.out| {
        assert b.out[k] == a.out[k] && HelloOk(cfgs, r, j, a.out[k]);
      }
    }
  }

  lemma ClaimedOk(cfgs: seq<S.Config>, r: Net, j: nat, a: S.State, b: S.State, e: S.Event)
    requires j < |cfgs| && ServerOk(cfgs, r, j, a) && Claims(a, b, e)
    requires e.PreambleRead? && e.id.Some? ==> e.channel in r.written && Raw(e.id.value) <= r.written[e.channel]
    ensures forall ch | ch in b.channels :: ChannelOk(r, ch, b.channels[ch])
  {
    forall ch | ch in b.channels
      ensures ChannelOk(r, ch, b.channels[ch])
    {
      assert ch in a.channels ==> ChannelOk(r, ch, a.channels[ch]);
    }
  }

  lemma ServerStepOk(cfgs: seq<S.Config>, s: Net, r: Net, j: nat, e: S.Event)
    requires Inv(cfgs, s) && j < |cfgs| && Possible(s, j, e) && Extends(s, r)
    requires var open := Admits(cfgs[j], s.servers[j], e); open.Some? ==> Admitted(cfgs, r, j, open.value.id)
    ensures ServerOk(cfgs, r, j, S.Step(cfgs[j], s.servers[j], e))
  {
    var a, b := s.servers[j], S.Step(cfgs[j], s.servers[j], e);
    StepGrows(cfgs[j], a, e);
    ExtendServer(cfgs, s, r, j, a);
    SentOk(cfgs, r, j, a, b, Admits(cfgs[j], a, e));
    ClaimedOk(cfgs, r, j, a, b, e);
    ListedOk(cfgs, r, j, a, b, Admits(cfgs[j], a, e));
  }

  lemma ListedOk(cfgs: seq<S.Config>, r: Net, j: nat, a: S.State, b: S.State, open: Option<Packet>)
    requires j < |cfgs| && ServerOk(cfgs, r, j, a)
    requires b.sessions.Keys <= a.sessions.Keys + (if open.Some? then {open.value.id} else {})
    requires open.Some? ==> Admitted(cfgs, r, j, open.value.id)
    ensures forall id | id in b.sessions :: Admitted(cfgs, r, j, id)
  {}

  lemma HelloKey(cfg: S.Config, psm: Option<nat>)
    requires |cfg.key| == KEY_LEN
    ensures DecodeKey(S.HelloPayload(cfg, psm)).key == cfg.key
  {
    KeyRoundTrip(cfg.key, PIPE_L2CAP, psm);
    KeyRoundTrip(cfg.key, 0, None);
  }

  lemma ServerStepExtends(cfgs: seq<S.Config>, s: Net, j: nat, e: S.Event)
    requires Inv(cfgs, s) && j < |cfgs| && Possible(s, j, e)
    ensures var r := ServerStep(cfgs, s, j, e);
            && Extends(s, r) && (forall a | a in r.admissions :: AdmissionOk(cfgs, r, a))
            && var open := Admits(cfgs[j], s.servers[j], e); open.Some? ==> Admitted(cfgs, r, j, open.value.id)
  {
    var r := ServerStep(cfgs, s, j, e);
    if Admits(cfgs[j], s.servers[j], e).Some? {
      AdmitOk(cfgs, s, j, e);
    }
    ExtendHistory(cfgs, s, r);
  }

  lemma ServerStepInv(cfgs: seq<S.Config>, s: Net, j: nat, e: S.Event)
    requires Inv(cfgs, s) && j < |cfgs| && Possible(s, j, e)
    ensures Inv(cfgs, ServerStep(cfgs, s, j, e))
  {
    var r := ServerStep(cfgs, s, j, e);
    ServerStepExtends(cfgs, s, j, e);
    ExtendHistory(cfgs, s, r);
    ServerStepOk(cfgs, s, r, j, e);
    forall i | 0 <= i < |cfgs|
      ensures ServerOk(cfgs, r, i, r.servers[i])
    {
      if i != j {
        ExtendServer(cfgs, s, r, i, s.servers[i]);
      }
    }
    forall i | i in r.centrals
      ensures CentralOk(cfgs, r, i, r.centrals[i])
    {
      ExtendCentral(cfgs, s, r, i, s.centrals[i]);
    }
  }

  lemma StepInv(cfgs: seq<S.Config>, s: Net, e: Event)
    requires Inv(cfgs, s)
    ensures Inv(cfgs, Step(cfgs, s, e))
  {
    if Enabled(cfgs, s, e) {
      match e
      case Begin(id, node, peer) => BeginInv(cfgs, s, id, node, peer);
      case Sends(id, kind, payload) => SendsInv(cfgs, s, id, kind, payload);
      case Notified(id, k, allow, linked) => NotifyInv(cfgs, s, id, k, allow, linked);
      case ChannelOpens(id, channel) => ChannelInv(cfgs, s, id, channel);
      case OpenFails(id) => PhaseInv(cfgs, s, id, Probing);
      case CentralEnds(id) => PhaseInv(cfgs, s, id, Over(false));
      case Streams(channel, data) => StreamsInv(cfgs, s, channel, data);
      case _ =>
        EventPossible(cfgs, s, e);
        ServerStepInv(cfgs, s, e.server, ServerEvent(e));
    }
  }

  lemma {:induction false} RunInv(cfgs: seq<S.Config>, events: seq<Event>)
    requires ValidKeys(cfgs)
    ensures Inv(cfgs, Run(cfgs, events))
  {
    if events != [] {
      RunInv(cfgs, events[..|events| - 1]);
      StepInv(cfgs, Run(cfgs, events[..|events| - 1]), events[|events| - 1]);
    }
  }

  // ─── main results ───────────────────────────────────────────────────────

  /** Main: in every run, a central that binds a stream for a session does so on its own pipe,
      the server is configured with the same one and let that session in, and each end took the
      other's own key, not its own, with shouldConnect answering yes to it. */
  lemma BoundAgrees(cfgs: seq<S.Config>, events: seq<Event>, id: Sid)
    requires ValidKeys(cfgs)
    requires var s := Run(cfgs, events); id in s.centrals && s.centrals[id].phase.Bound?
    ensures var s := Run(cfgs, events); var c := s.centrals[id];
            && c.node < |cfgs| && c.peer < |cfgs|
            && cfgs[c.node].l2cap == cfgs[c.peer].l2cap == c.channel.Some?
            && Admission(c.peer, id, Answer(cfgs[c.node].key, true)) in s.admissions
            && c.hello == Some(Answer(cfgs[c.peer].key, true))
            && S.Accepts(cfgs[c.node].key, cfgs[c.peer].key, true)
            && S.Accepts(cfgs[c.peer].key, cfgs[c.node].key, true)
  {
    RunInv(cfgs, events);
    var s := Run(cfgs, events);
    assert CentralOk(cfgs, s, id, s.centrals[id]);
    assert AdmissionOk(cfgs, s, Admission(s.centrals[id].peer, id, Answer(cfgs[s.centrals[id].node].key, true)));
  }

  /** Main: between nodes on different pipes neither end ever has anything to bind: the central
      never gets past its probe and the server never lists the session. */
  lemma MismatchNeverBinds(cfgs: seq<S.Config>, events: seq<Event>, id: Sid)
    requires ValidKeys(cfgs) && id in Run(cfgs, events).centrals
    ensures var s := Run(cfgs, events); var c := s.centrals[id];
            && c.node < |cfgs| && c.peer < |cfgs|
            && (cfgs[c.node].l2cap != cfgs[c.peer].l2cap ==>
                  (c.phase.Probing? || c.phase.Over?) && forall j | 0 <= j < |cfgs| :: id !in s.servers[j].sessions)
  {
    RunInv(cfgs, events);
    var s := Run(cfgs, events);
    var c := s.centrals[id];
    assert CentralOk(cfgs, s, id, c);
    if Admitted(cfgs, s, c.peer, id) {
      assert AdmissionOk(cfgs, s, Admission(c.peer, id, Answer(cfgs[c.node].key, true)));
    }
    forall j | 0 <= j < |cfgs| && id in s.servers[j].sessions
      ensures cfgs[c.node].l2cap == cfgs[c.peer].l2cap
    {
      assert ServerOk(cfgs, s, j, s.servers[j]) && Admitted(cfgs, s, j, id);
      assert AdmissionOk(cfgs, s, Admission(j, id, Answer(cfgs[c.node].key, true)));
    }
  }

  /** Main: an l2cap channel bound at both ends carries the same session at both. */
  lemma ChannelAgrees(cfgs: seq<S.Config>, events: seq<Event>, j: nat, channel: nat, a: Sid, b: Sid)
    requires ValidKeys(cfgs) && j < |cfgs|
    requires var s := Run(cfgs, events);
             && channel in s.servers[j].channels && s.servers[j].channels[channel] == S.Channel.Bound(a)
             && b in s.centrals && s.centrals[b].phase.Bound? && s.centrals[b].channel == Some(channel)
    ensures a == b
  {
    RunInv(cfgs, events);
    var s := Run(cfgs, events);
    assert ServerOk(cfgs, s, j, s.servers[j]) && ChannelOk(s, channel, s.servers[j].channels[channel]);
    assert CentralOk(cfgs, s, b, s.centrals[b]);
    SamePrefix(a, b, s.written[channel]);
  }

  lemma SamePrefix(a: Sid, b: Sid, bytes: seq<byte>)
    requires Raw(a) <= bytes && Raw(b) <= bytes
    ensures a == b
  {
    assert Raw(a) == bytes[..SID_LEN] == Raw(b);
    HexIsCanonical(a, b);
  }

  // ─── the central's answers, written out ─────────────────────────────────

  /** Main: a probing central takes a HELLO exactly if the key is well formed, not its own, wanted and
      not yet linked, the pipes agree, and l2cap came with a psm. It refuses for good, releasing the
      physical link, unless the peer is merely linked already. */
  lemma HelloAnswered(cfgs: seq<S.Config>, s: Net, id: Sid, k: nat, allow: bool, linked: bool)
    requires Enabled(cfgs, s, Notified(id, k, allow, linked)) && |s.servers| == |cfgs| && s.centrals[id].node < |cfgs|
    requires var f := s.servers[s.centrals[id].peer].out[k]; f.id == id && f.kind == TYPE_HELLO
    ensures var c, own := s.centrals[id], cfgs[s.centrals[id].node];
            var hello := DecodeKey(s.servers[c.peer].out[k].payload);
            var r := Step(cfgs, s, Notified(id, k, allow, linked));
            && r == s.(centrals := s.centrals[id := r.centrals[id]])
            && if !c.phase.Probing? then r.centrals[id] == c
               else if |hello.key| != KEY_LEN || hello.key == own.key || !allow then r.centrals[id] == c.(phase := Over(false))
               else if linked then r.centrals[id] == c.(phase := Over(true))
               else if (hello.flags as int % 2 == 1) != own.l2cap then r.centrals[id] == c.(phase := Over(false))
               else if own.l2cap && hello.psm.None? then r.centrals[id] == c.(phase := Over(false))
               else r.centrals[id] == c.(phase := if own.l2cap then Opening else Bound, hello := Some(Answer(hello.key, true)))
  {
    WireRoundTrip(s.servers[s.centrals[id].peer].out[k]);
  }

  /** Main: a CLOSE ends the session; the physical link is released at once exactly if no stream was
      bound and the server refused for good. A frame of another session, or one more to an ended
      session, changes nothing. */
  lemma CloseAnswered(cfgs: seq<S.Config>, s: Net, id: Sid, k: nat, allow: bool, linked: bool)
    requires Enabled(cfgs, s, Notified(id, k, allow, linked)) && |s.servers| == |cfgs| && s.centrals[id].node < |cfgs|
    requires s.servers[s.centrals[id].peer].out[k].kind != TYPE_HELLO || s.servers[s.centrals[id].peer].out[k].id != id
    ensures var c, f, r := s.centrals[id], s.servers[s.centrals[id].peer].out[k], Step(cfgs, s, Notified(id, k, allow, linked));
            if f.id == id && f.kind == TYPE_CLOSE && !c.phase.Over? then
              r.centrals == s.centrals[id := c.(phase := Over(c.phase.Bound? || DecodeReason(f.payload) != REASON_FINAL))]
            else r.centrals == s.centrals
  {
    WireRoundTrip(s.servers[s.centrals[id].peer].out[k]);
    assert s.centrals[id := s.centrals[id]] == s.centrals;
  }

  /** A probe begins by sending OPEN with the node's own key and pipe; a channel that opens gets the
      session's id first; one that does not leaves the probe waiting for another HELLO; the end of a
      session releases the physical link. */
  lemma ProbeEvents(cfgs: seq<S.Config>, s: Net, id: Sid, node: nat, peer: nat, channel: nat)
    requires |s.servers| == |cfgs|
    ensures Enabled(cfgs, s, Begin(id, node, peer)) ==>
      Step(cfgs, s, Begin(id, node, peer)) == s.(
        centrals := s.centrals[id := Central(node, peer, Probing, None, None)],
        writes := s.writes + {Write(peer, Packet(TYPE_OPEN, id, EncodeKey(cfgs[node].key, if cfgs[node].l2cap then 1 else 0, None)))})
    ensures Enabled(cfgs, s, ChannelOpens(id, channel)) ==>
      Step(cfgs, s, ChannelOpens(id, channel)) == s.(
        centrals := s.centrals[id := s.centrals[id].(phase := Bound, channel := Some(channel))],
        written := s.written[channel := Raw(id)])
    ensures Enabled(cfgs, s, OpenFails(id)) ==>
      Step(cfgs, s, OpenFails(id)) == s.(centrals := s.centrals[id := s.centrals[id].(phase := Probing)])
    ensures Enabled(cfgs, s, CentralEnds(id)) ==>
      Step(cfgs, s, CentralEnds(id)) == s.(centrals := s.centrals[id := s.centrals[id].(phase := Over(false))])
  {}

  // ─── the object ─────────────────────────────────────────────────────────

  /** A peripheral as the central keeps it: its session, if any, whether a channel open is under
      way, and whether it has a stream. */
  class Probe {
    const cfg: S.Config
    const id: Sid
    const node: nat
    const peer: nat
    var session: bool
    var kept: bool
    var upgrading: bool
    var stream: bool
    var channel: Option<nat>
    ghost var hello: Option<Answer>

    ghost function State(): Central
      reads this
    {
      Central(node, peer, if !session then Over(kept) else if stream then Bound else if upgrading then Opening else Probing,
              hello, channel)
    }

    constructor (cfg: S.Config, id: Sid, node: nat, peer: nat)
      ensures State() == Central(node, peer, Probing, None, None) && this.cfg == cfg && this.id == id
    {
      this.cfg, this.id, this.node, this.peer := cfg, id, node, peer;
      session, kept, upgrading, stream, channel, hello := true, true, false, false, None, None;
    }

    /** _onCentralNotify, up to the pipe's openCentral. */
    method OnCentralNotify(data: seq<byte>, allow: bool, linked: bool)
      modifies this`session, this`kept, this`upgrading, this`stream, this`hello
      ensures State() == OnNotify(cfg, old(State()), id, data, allow, linked)
    {
      if !session {
        return;
      }
      var f := Unwire(data);
      if f.None? || f.value.id != id {
        return;
      }
      if f.value.kind == TYPE_HELLO {
        if !stream && !upgrading {
          AnswerHello(DecodeKey(f.value.payload), allow, linked);
        }
      } else if f.value.kind == TYPE_CLOSE {
        EndCentral(stream || DecodeReason(f.value.payload) != REASON_FINAL);
      }
    }

    method EndCentral(keep: bool)
      modifies this`session, this`kept
      ensures State() == old(State()).(phase := Over(keep))
    {
      session, kept := false, keep;
    }

    method AnswerHello(payload: KeyPayload, allow: bool, linked: bool)
      requires session && !stream && !upgrading
      modifies this`session, this`kept, this`upgrading, this`stream, this`hello
      ensures State() == OnHello(cfg, old(State()), payload, allow, linked)
    {
      if !S.Accepts(payload.key, cfg.key, allow) {
        EndCentral(false);
      } else if linked {
        EndCentral(true);
      } else if !S.PipesMatch(payload.flags, cfg.l2cap) || (cfg.l2cap && payload.psm.None?) {
        EndCentral(false);
      } else {
        upgrading, stream := cfg.l2cap, !cfg.l2cap;
        hello := Some(Answer(payload.key, allow));
      }
    }

    /** openCentral once the channel opened: write the id, then bind; the channel of a session that
        ended meanwhile, or of a halted transport, is destroyed. */
    method ChannelOpened(channel: nat, halted: bool) returns (preamble: Option<seq<byte>>)
      requires upgrading && !stream
      modifies this`upgrading, this`stream, this`channel
      ensures preamble == if old(session) && !halted then Some(Raw(id)) else None
      ensures State() == if !old(session) then old(State())
                         else if halted then old(State()).(phase := Probing)
                         else old(State()).(phase := Bound, channel := Some(channel))
    {
      upgrading := false;
      preamble := None;
      if session && !halted {
        preamble := Some(Raw(id));
        stream, this.channel := true, Some(channel);
      }
    }
  }
}
