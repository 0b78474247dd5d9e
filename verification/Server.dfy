/** The peripheral side of lib/transport.js: the session table, its pipe timers, and the rotation
    of the l2cap listener of lib/l2cap.js under live handshakes. */
module Server {
  import opened Options
  import opened Bytes
  import opened Frames

  /** `canRetract`: the backend has unpublishChannel. `isMac`: suspend retracts the listener. */
  datatype Config = Config(key: seq<byte>, l2cap: bool, maxInbound: nat, isMac: bool, canRetract: bool)

  /** `uid` tells session objects apart when an id is used again. `hello` is the psm its HELLO
      carried and `peer` the key its OPEN carried, both histories. */
  datatype Session = Session(uid: nat, stream: Option<nat>, pipeTimer: Option<nat>, hello: Option<nat>, peer: seq<byte>)

  datatype Timer = Timer(id: Sid, uid: nat)

  datatype Channel = Awaiting | Bound(id: Sid) | Destroyed

  datatype Phase = Running | Draining | Parked

  /** `timers`: the pipe timers armed at the event loop. `streams`: streams whose close event is
      still to come, with the session id their listener holds. `retracted`: history of the psms
      unpublishChannel was called on; `binds`: of the session objects given a stream; `out`: of
      the frames notified. `phase`: whether a suspend is draining or has completed. */
  datatype State = State(
    sessions: map<Sid, Session>,
    timers: map<nat, Timer>,
    streams: map<nat, Sid>,
    channels: map<nat, Channel>,
    psm: Option<nat>,
    cyclePending: bool,
    phase: Phase,
    closing: bool,
    retracted: set<nat>,
    binds: seq<nat>,
    out: seq<Packet>,
    next: nat)

  const INIT := State(map[], map[], map[], map[], None, false, Running, false, {}, [], [], 0)

  /** `allow`: the answer of the shouldConnect policy for the key at hand. `busy`: a dial is in
      flight or a candidate is held. */
  datatype Event =
    | WriteRequest(bytes: seq<byte>, allow: bool, busy: bool)
    | ChannelOpen(channel: nat)
    | PreambleRead(channel: nat, id: Option<Sid>)
    | StreamClosed(stream: nat)
    | PipeTimeout(timer: nat)
    | ChannelPublished(psm: nat)
    | RadioDown
    | SuspendBegins
    | SaysGoodbye(to: Sid)
    | SuspendEnds
    | Resume
    | CloseBegins
    | CloseEnds

  // ─── policy ─────────────────────────────────────────────────────────────

  predicate Accepts(key: seq<byte>, own: seq<byte>, allow: bool) {
    |key| == KEY_LEN && key != own && allow
  }

  /** _pipeFor: both ends on l2cap, or neither. */
  predicate PipesMatch(flags: byte, l2cap: bool) {
    (flags as int % 2 == 1) == l2cap
  }

  function Capabilities(l2cap: bool): byte {
    if l2cap then PIPE_L2CAP else 0
  }

  predicate InitiatorWins(key: seq<byte>, own: seq<byte>) {
    Less(key, own)
  }

  datatype Verdict = Accept | RefuseFinal | NoPsm | TableFull | TieBreak

  /** How an OPEN is answered: the refusals in the order the source tests them. */
  function Judge(cfg: Config, s: State, open: KeyPayload, allow: bool, busy: bool): Verdict {
    if !Accepts(open.key, cfg.key, allow) || !PipesMatch(open.flags, cfg.l2cap) then RefuseFinal
    else if cfg.l2cap && s.psm.None? then NoPsm
    else if |s.sessions| >= cfg.maxInbound then TableFull
    else if !InitiatorWins(open.key, cfg.key) && busy then TieBreak
    else Accept
  }

  predicate Halted(s: State) {
    !s.phase.Running? || s.closing
  }

  // ─── listener ───────────────────────────────────────────────────────────

  function Unpublish(cfg: Config, s: State): State {
    if s.psm.None? then s
    else s.(psm := None, retracted := if cfg.canRetract then s.retracted + {s.psm.value} else s.retracted)
  }

  predicate IsPending(s: State, id: Sid) {
    id in s.sessions && s.sessions[id].stream.None?
  }

  ghost predicate AnyPending(s: State) {
    exists id :: IsPending(s, id)
  }

  /** Rotate the listener, or hold the rotation while a session still opens its channel. */
  ghost function MaybeCycle(cfg: Config, s: State): State {
    if AnyPending(s) then s.(cyclePending := true) else Unpublish(cfg, s.(cyclePending := false))
  }

  // ─── sessions ───────────────────────────────────────────────────────────

  function Disarm(s: State, timer: Option<nat>): State {
    if timer.None? then s else s.(timers := s.timers - {timer.value})
  }

  function Remove(s: State, id: Sid): State
    requires id in s.sessions
  {
    Disarm(s, s.sessions[id].pipeTimer).(sessions := s.sessions - {id})
  }

  ghost function Reap(cfg: Config, s: State, id: Sid): State
    requires id in s.sessions
  {
    var r := Remove(s, id);
    if cfg.l2cap && !Halted(r) then MaybeCycle(cfg, r) else r
  }

  function Notify(s: State, kind: byte, id: Sid, payload: seq<byte>): State {
    s.(out := s.out + [Packet(kind, id, payload)])
  }

  ghost function CloseSession(cfg: Config, s: State, id: Sid): State {
    if id in s.sessions then Notify(Reap(cfg, s, id), TYPE_CLOSE, id, []) else s
  }

  function Attach(s: State, id: Sid): State
    requires id in s.sessions
  {
    var session := s.sessions[id];
    Disarm(s, session.pipeTimer).(
      sessions := s.sessions[id := session.(stream := Some(s.next), pipeTimer := None)],
      streams := s.streams[s.next := id],
      binds := s.binds + [session.uid],
      next := s.next + 1)
  }

  ghost function Bind(cfg: Config, s: State, id: Sid): State
    requires id in s.sessions
  {
    var r := Attach(s, id);
    if r.cyclePending then MaybeCycle(cfg, r) else r
  }

  function Insert(cfg: Config, s: State, id: Sid, peer: seq<byte>): State {
    if cfg.l2cap then
      s.(sessions := s.sessions[id := Session(s.next, None, Some(s.next), s.psm, peer)],
         timers := s.timers[s.next := Timer(id, s.next)],
         next := s.next + 1)
    else s.(sessions := s.sessions[id := Session(s.next, None, None, None, peer)], next := s.next + 1)
  }

  ghost function OnOpen(cfg: Config, s: State, f: Packet, allow: bool, busy: bool): State
    requires f.id !in s.sessions
  {
    var open := DecodeKey(f.payload);
    match Judge(cfg, s, open, allow, busy)
    case RefuseFinal => Notify(s, TYPE_CLOSE, f.id, EncodeReason(REASON_FINAL))
    case Accept =>
      var r := Insert(cfg, s, f.id, open.key);
      if cfg.l2cap then Notify(r, TYPE_HELLO, f.id, EncodeKey(cfg.key, PIPE_L2CAP, s.psm))
      else Notify(Bind(cfg, r, f.id), TYPE_HELLO, f.id, cfg.key)
    case _ => Notify(s, TYPE_CLOSE, f.id, [])
  }

  ghost function OnFrame(cfg: Config, s: State, bytes: seq<byte>, allow: bool, busy: bool): State {
    var f := Unwire(bytes);
    if f.None? then s
    else if f.value.kind == TYPE_OPEN then
      if f.value.id in s.sessions then s else OnOpen(cfg, s, f.value, allow, busy)
    else if f.value.id !in s.sessions then s
    else if f.value.kind == TYPE_DATA then
      if s.sessions[f.value.id].stream.None? then CloseSession(cfg, s, f.value.id) else s
    else if f.value.kind == TYPE_CLOSE then Reap(cfg, s, f.value.id)
    else s
  }

  /** acceptServer after its await: the id names a session still without a stream, or the channel
      is destroyed. A stream bound while halted is destroyed by _onChannel. */
  ghost function OnPreamble(cfg: Config, s: State, channel: nat, id: Option<Sid>): State {
    if id.Some? && IsPending(s, id.value) then
      Bind(cfg, s, id.value).(channels := s.channels[channel := if Halted(s) then Destroyed else Bound(id.value)])
    else s.(channels := s.channels[channel := Destroyed])
  }

  function OnPipeTimeout(s: State, timer: nat): State
    requires timer in s.timers
  {
    var Timer(id, uid) := s.timers[timer];
    var r := s.(timers := s.timers - {timer});
    if id !in s.sessions || s.sessions[id].uid != uid then r
    else
      var q := r.(sessions := s.sessions[id := s.sessions[id].(pipeTimer := None)]);
      if s.sessions[id].stream.Some? then q
      else Notify(q.(sessions := s.sessions - {id}), TYPE_CLOSE, id, [])
  }

  function ReapAll(s: State): State {
    s.(sessions := map[], timers := ClearTimers(s, s.sessions.Keys))
  }

  /** The armed timers once those of the given sessions are cleared. */
  function ClearTimers(s: State, ids: set<Sid>): map<nat, Timer>
    requires ids <= s.sessions.Keys
  {
    map t | t in s.timers && !OwnsTimer(s, ids, t) :: s.timers[t]
  }

  predicate OwnsTimer(s: State, ids: set<Sid>, timer: nat)
    requires ids <= s.sessions.Keys
  {
    exists id | id in ids :: s.sessions[id].pipeTimer == Some(timer)
  }

  predicate Enabled(s: State, e: Event) {
    match e
    case WriteRequest(_, _, _) => true
    case ChannelOpen(channel) => channel !in s.channels
    case PreambleRead(channel, _) => channel in s.channels && s.channels[channel].Awaiting?
    case StreamClosed(stream) => stream in s.streams
    case PipeTimeout(timer) => timer in s.timers
    // psms are sixteen bits, and the OS never announces one again after it was retracted
    case ChannelPublished(psm) => psm < 0x1_0000 && psm !in s.retracted
    case SaysGoodbye(id) => s.phase.Draining? && id in s.sessions
    case SuspendEnds => !s.phase.Running?
    // resume is entered only after suspend has completed
    case Resume => s.phase.Parked?
    case _ => true
  }

  ghost function Apply(cfg: Config, s: State, e: Event): State
    requires Enabled(s, e)
  {
    match e
    case WriteRequest(bytes, allow, busy) => if !s.phase.Running? then s else OnFrame(cfg, s, bytes, allow, busy)
    case ChannelOpen(channel) => s.(channels := s.channels[channel := if Halted(s) then Destroyed else Awaiting])
    case PreambleRead(channel, id) => OnPreamble(cfg, s, channel, id)
    case StreamClosed(stream) => CloseSession(cfg, s.(streams := s.streams - {stream}), s.streams[stream])
    case PipeTimeout(timer) => OnPipeTimeout(s, timer)
    case ChannelPublished(psm) => s.(psm := Some(psm))
    case RadioDown => ReapAll(s)
    case SuspendBegins => s.(phase := Draining)
    case SaysGoodbye(id) => Notify(s, TYPE_CLOSE, id, [])
    case SuspendEnds =>
      var r := ReapAll(s).(cyclePending := false, phase := Parked);
      if cfg.isMac then Unpublish(cfg, r) else r
    case Resume => OnResume(cfg, s)
    case CloseBegins => s.(closing := true)
    case CloseEnds => ReapAll(s)
  }

  function OnResume(cfg: Config, s: State): State {
    var r := s.(phase := Running);
    if s.closing || !cfg.l2cap then r else Unpublish(cfg, r)
  }

  ghost function Step(cfg: Config, s: State, e: Event): State {
    if Enabled(s, e) then Apply(cfg, s, e) else s
  }

  ghost function Run(cfg: Config, events: seq<Event>): State {
    if events == [] then INIT else Step(cfg, Run(cfg, events[..|events| - 1]), events[|events| - 1])
  }

  // ─── the table invariant ────────────────────────────────────────────────

  /** A session in the table is pending exactly while its own pipe timer is armed; a pending one
      has never had a stream, and the psm its HELLO carried has not been retracted. */
  predicate SessionOk(s: State, id: Sid)
    requires id in s.sessions
  {
    var x := s.sessions[id];
    && x.uid < s.next
    && (x.stream.None? <==> x.pipeTimer.Some?)
    && (x.pipeTimer.Some? ==> x.pipeTimer.value in s.timers && s.timers[x.pipeTimer.value] == Timer(id, x.uid))
    && (x.stream.None? ==> x.uid !in s.binds && x.hello.Some? && x.hello.value !in s.retracted)
  }

  /** An armed pipe timer belongs to a session in the table. */
  predicate TimerOk(s: State, timer: nat)
    requires timer in s.timers
  {
    && timer < s.next
    && s.timers[timer].id in s.sessions
    && s.sessions[s.timers[timer].id].pipeTimer == Some(timer)
  }

  ghost predicate Distinct(s: State) {
    forall a, b | a in s.sessions && b in s.sessions :: s.sessions[a].uid == s.sessions[b].uid ==> a == b
  }

  /** No session object is given a stream twice. */
  ghost predicate BindsOnce(s: State) {
    && (forall i | 0 <= i < |s.binds| :: s.binds[i] < s.next)
    && (forall i, j | 0 <= i < j < |s.binds| :: s.binds[i] != s.binds[j])
  }

  predicate ListenerOk(s: State) {
    s.psm.Some? ==> s.psm.value < 0x1_0000 && s.psm.value !in s.retracted
  }

  ghost predicate Inv(cfg: Config, s: State) {
    && (forall id | id in s.sessions :: SessionOk(s, id))
    && (forall t | t in s.timers :: TimerOk(s, t))
    && Distinct(s)
    && BindsOnce(s)
    && |s.sessions| <= cfg.maxInbound
    && ListenerOk(s)
    && (s.phase.Parked? ==> s.sessions == map[])
  }

  lemma RemoveSessions(cfg: Config, s: State, id: Sid)
    requires Inv(cfg, s) && id in s.sessions
    ensures forall i | i in Remove(s, id).sessions :: SessionOk(Remove(s, id), i)
  {
    var r := Remove(s, id);
    assert SessionOk(s, id);
    forall i | i in r.sessions
      ensures SessionOk(r, i)
    {
      assert SessionOk(s, i);
    }
  }

  lemma RemoveTimers(cfg: Config, s: State, id: Sid)
    requires Inv(cfg, s) && id in s.sessions
    ensures forall t | t in Remove(s, id).timers :: TimerOk(Remove(s, id), t)
  {
    var r := Remove(s, id);
    forall t | t in r.timers
      ensures TimerOk(r, t)
    {
      assert TimerOk(s, t);
    }
  }

  lemma RemoveInv(cfg: Config, s: State, id: Sid)
    requires Inv(cfg, s) && id in s.sessions
    ensures Inv(cfg, Remove(s, id))
  {
    var r := Remove(s, id);
    RemoveSessions(cfg, s, id);
    RemoveTimers(cfg, s, id);
    assert r.sessions.Keys == s.sessions.Keys - {id};
    assert |r.sessions.Keys| < |s.sessions.Keys|;
  }

  lemma UnpublishSessions(cfg: Config, s: State)
    requires Inv(cfg, s)
    requires forall id :: IsPending(s, id) ==> s.sessions[id].hello != s.psm
    ensures forall id | id in s.sessions :: SessionOk(Unpublish(cfg, s), id)
  {
    forall id | id in s.sessions
      ensures SessionOk(Unpublish(cfg, s), id)
    {
      assert SessionOk(s, id) && (s.sessions[id].stream.None? ==> IsPending(s, id));
    }
  }

  /** Retracting the listener breaks no handshake while no pending session holds its psm. */
  lemma UnpublishInv(cfg: Config, s: State)
    requires Inv(cfg, s)
    requires forall id :: IsPending(s, id) ==> s.sessions[id].hello != s.psm
    ensures Inv(cfg, Unpublish(cfg, s))
  {
    if s.psm.Some? {
      UnpublishSessions(cfg, s);
      SameTimers(s, Unpublish(cfg, s));
      SameHistories(s, Unpublish(cfg, s));
    }
  }

  lemma SameTimers(s: State, r: State)
    requires r.sessions == s.sessions && r.timers == s.timers && r.next == s.next
    requires forall t | t in s.timers :: TimerOk(s, t)
    ensures forall t | t in r.timers :: TimerOk(r, t)
  {
    forall t | t in r.timers
      ensures TimerOk(r, t)
    {
      assert TimerOk(s, t);
    }
  }

  lemma SameHistories(s: State, r: State)
    requires r.sessions == s.sessions && r.binds == s.binds && r.next == s.next
    requires Distinct(s) && BindsOnce(s)
    ensures Distinct(r) && BindsOnce(r)
  {}

  lemma MaybeCycleInv(cfg: Config, s: State)
    requires Inv(cfg, s)
    ensures Inv(cfg, MaybeCycle(cfg, s))
  {
    var r := s.(cyclePending := AnyPending(s));
    SameTable(cfg, s, r);
    if !AnyPending(s) {
      assert forall id :: IsPending(r, id) == IsPending(s, id);
      UnpublishInv(cfg, r);
    }
  }

  /** The invariant reads the table, its timers and histories, the psm and the phase only. */
  lemma SameTable(cfg: Config, s: State, r: State)
    requires Inv(cfg, s)
    requires r.sessions == s.sessions && r.timers == s.timers && r.binds == s.binds && r.retracted == s.retracted
    requires r.next == s.next
    requires ListenerOk(r)
    requires r.phase.Parked? ==> s.sessions == map[]
    ensures Inv(cfg, r)
  {
    forall id | id in r.sessions
      ensures SessionOk(r, id)
    {
      assert SessionOk(s, id);
    }
    forall t | t in r.timers
      ensures TimerOk(r, t)
    {
      assert TimerOk(s, t);
    }
  }

  lemma ReapInv(cfg: Config, s: State, id: Sid)
    requires Inv(cfg, s) && id in s.sessions
    ensures Inv(cfg, Reap(cfg, s, id))
  {
    RemoveInv(cfg, s, id);
    MaybeCycleInv(cfg, Remove(s, id));
  }

  lemma CloseSessionInv(cfg: Config, s: State, id: Sid)
    requires Inv(cfg, s)
    ensures Inv(cfg, CloseSession(cfg, s, id))
  {
    if id in s.sessions {
      ReapInv(cfg, s, id);
      SameTable(cfg, Reap(cfg, s, id), CloseSession(cfg, s, id));
    }
  }

  lemma AttachSessions(cfg: Config, s: State, id: Sid)
    requires Inv(cfg, s) && IsPending(s, id)
    ensures forall i | i in Attach(s, id).sessions :: SessionOk(Attach(s, id), i)
  {
    var r := Attach(s, id);
    assert SessionOk(s, id);
    forall i | i in r.sessions
      ensures SessionOk(r, i)
    {
      assert SessionOk(s, i);
    }
  }

  lemma AttachTimers(cfg: Config, s: State, id: Sid)
    requires Inv(cfg, s) && IsPending(s, id)
    ensures forall t | t in Attach(s, id).timers :: TimerOk(Attach(s, id), t)
  {
    var r := Attach(s, id);
    assert SessionOk(s, id);
    forall t | t in r.timers
      ensures TimerOk(r, t)
    {
      assert TimerOk(s, t);
    }
  }

  lemma AttachBinds(cfg: Config, s: State, id: Sid)
    requires Inv(cfg, s) && IsPending(s, id)
    ensures BindsOnce(Attach(s, id)) && Distinct(Attach(s, id))
  {
    assert SessionOk(s, id);
  }

  lemma AttachInv(cfg: Config, s: State, id: Sid)
    requires Inv(cfg, s) && IsPending(s, id)
    ensures Inv(cfg, Attach(s, id))
  {
    AttachSessions(cfg, s, id);
    AttachTimers(cfg, s, id);
    AttachBinds(cfg, s, id);
    assert Attach(s, id).sessions.Keys == s.sessions.Keys;
    assert |Attach(s, id).sessions.Keys| == |s.sessions.Keys|;
  }

  lemma BindInv(cfg: Config, s: State, id: Sid)
    requires Inv(cfg, s) && IsPending(s, id)
    ensures Inv(cfg, Bind(cfg, s, id))
  {
    AttachInv(cfg, s, id);
    MaybeCycleInv(cfg, Attach(s, id));
  }

  /** The table with a session just accepted: pending on l2cap, given its stream at once on gatt. */
  function Admit(cfg: Config, s: State, id: Sid, peer: seq<byte>): State {
    var r := Insert(cfg, s, id, peer);
    if cfg.l2cap then r else Attach(r, id)
  }

  lemma AdmitSessions(cfg: Config, s: State, id: Sid, peer: seq<byte>)
    requires Inv(cfg, s) && id !in s.sessions && (cfg.l2cap ==> s.psm.Some?)
    ensures forall i | i in Admit(cfg, s, id, peer).sessions :: SessionOk(Admit(cfg, s, id, peer), i)
  {
    var r := Admit(cfg, s, id, peer);
    forall i | i in r.sessions
      ensures SessionOk(r, i)
    {
      if i != id {
        assert SessionOk(s, i);
        assert cfg.l2cap ==> s.sessions[i].pipeTimer != Some(s.next);
      }
    }
  }

  lemma AdmitTimers(cfg: Config, s: State, id: Sid, peer: seq<byte>)
    requires Inv(cfg, s) && id !in s.sessions
    ensures forall t | t in Admit(cfg, s, id, peer).timers :: TimerOk(Admit(cfg, s, id, peer), t)
  {
    var r := Admit(cfg, s, id, peer);
    forall t | t in r.timers
      ensures TimerOk(r, t)
    {
      assert t in s.timers ==> TimerOk(s, t);
    }
  }

  lemma AdmitDistinct(cfg: Config, s: State, id: Sid, peer: seq<byte>)
    requires Inv(cfg, s) && id !in s.sessions
    ensures Distinct(Admit(cfg, s, id, peer))
  {
    var r := Admit(cfg, s, id, peer);
    forall a | a in r.sessions
      ensures r.sessions[a].uid == if a == id then s.next else s.sessions[a].uid
      ensures a != id ==> r.sessions[a].uid < s.next
    {
      assert a != id ==> SessionOk(s, a);
    }
  }

  lemma AdmitBinds(cfg: Config, s: State, id: Sid, peer: seq<byte>)
    requires BindsOnce(s)
    ensures BindsOnce(Admit(cfg, s, id, peer))
  {}

  lemma AdmitInv(cfg: Config, s: State, id: Sid, peer: seq<byte>)
    requires Inv(cfg, s) && id !in s.sessions && |s.sessions| < cfg.maxInbound && !s.phase.Parked?
    requires cfg.l2cap ==> s.psm.Some?
    ensures Inv(cfg, Admit(cfg, s, id, peer))
  {
    AdmitSessions(cfg, s, id, peer);
    AdmitTimers(cfg, s, id, peer);
    AdmitDistinct(cfg, s, id, peer);
    AdmitBinds(cfg, s, id, peer);
    AdmitSize(cfg, s, id, peer);
  }

  lemma AdmitSize(cfg: Config, s: State, id: Sid, peer: seq<byte>)
    requires id !in s.sessions
    ensures |Admit(cfg, s, id, peer).sessions| == |s.sessions| + 1
  {
    assert Admit(cfg, s, id, peer).sessions.Keys == s.sessions.Keys + {id};
  }

  lemma OpenInv(cfg: Config, s: State, f: Packet, allow: bool, busy: bool)
    requires Inv(cfg, s) && f.id !in s.sessions && s.phase.Running?
    ensures Inv(cfg, OnOpen(cfg, s, f, allow, busy))
  {
    var open := DecodeKey(f.payload);
    if Judge(cfg, s, open, allow, busy).Accept? {
      AcceptInv(cfg, s, f.id, open.key);
    }
    SameTable(cfg, if Judge(cfg, s, open, allow, busy).Accept? then Entered(cfg, s, f.id, open.key) else s,
              OnOpen(cfg, s, f, allow, busy));
  }

  /** The state once an accepted session is in the table, before its HELLO. */
  ghost function Entered(cfg: Config, s: State, id: Sid, peer: seq<byte>): State {
    var r := Insert(cfg, s, id, peer);
    if cfg.l2cap then r else Bind(cfg, r, id)
  }

  lemma AcceptInv(cfg: Config, s: State, id: Sid, peer: seq<byte>)
    requires Inv(cfg, s) && id !in s.sessions && |s.sessions| < cfg.maxInbound && !s.phase.Parked?
    requires cfg.l2cap ==> s.psm.Some?
    ensures Inv(cfg, Entered(cfg, s, id, peer))
  {
    AdmitInv(cfg, s, id, peer);
    MaybeCycleInv(cfg, Admit(cfg, s, id, peer));
  }

  lemma FrameInv(cfg: Config, s: State, bytes: seq<byte>, allow: bool, busy: bool)
    requires Inv(cfg, s) && s.phase.Running?
    ensures Inv(cfg, OnFrame(cfg, s, bytes, allow, busy))
  {
    var f := Unwire(bytes);
    if f.Some? {
      if f.value.id !in s.sessions {
        OpenInv(cfg, s, f.value, allow, busy);
      } else {
        CloseSessionInv(cfg, s, f.value.id);
        ReapInv(cfg, s, f.value.id);
      }
    }
  }

  lemma PreambleInv(cfg: Config, s: State, channel: nat, id: Option<Sid>)
    requires Inv(cfg, s)
    ensures Inv(cfg, OnPreamble(cfg, s, channel, id))
  {
    if id.Some? && IsPending(s, id.value) {
      BindInv(cfg, s, id.value);
      SameTable(cfg, Bind(cfg, s, id.value), OnPreamble(cfg, s, channel, id));
    } else {
      SameTable(cfg, s, OnPreamble(cfg, s, channel, id));
    }
  }

  lemma TimeoutInv(cfg: Config, s: State, timer: nat)
    requires Inv(cfg, s) && timer in s.timers
    ensures Inv(cfg, OnPipeTimeout(s, timer))
  {
    var id := s.timers[timer].id;
    assert TimerOk(s, timer) && SessionOk(s, id);
    RemoveInv(cfg, s, id);
    SameTable(cfg, Remove(s, id), OnPipeTimeout(s, timer));
  }

  lemma ReapAllInv(cfg: Config, s: State)
    requires Inv(cfg, s)
    ensures Inv(cfg, ReapAll(s)) && ReapAll(s).timers == map[]
  {
    forall t | t in s.timers
      ensures OwnsTimer(s, s.sessions.Keys, t)
    {
      assert TimerOk(s, t);
    }
  }

  lemma StepInv(cfg: Config, s: State, e: Event)
    requires Inv(cfg, s)
    ensures Inv(cfg, Step(cfg, s, e))
  {
    if Enabled(s, e) {
      match e
      case WriteRequest(bytes, allow, busy) => if s.phase.Running? { FrameInv(cfg, s, bytes, allow, busy); }
      case PreambleRead(channel, id) => PreambleInv(cfg, s, channel, id);
      case StreamClosed(stream) => StreamInv(cfg, s, stream);
      case PipeTimeout(timer) => TimeoutInv(cfg, s, timer);
      case RadioDown => ReapAllInv(cfg, s);
      case CloseEnds => ReapAllInv(cfg, s);
      case SuspendEnds => SuspendInv(cfg, s);
      case Resume => ResumeInv(cfg, s);
      case _ => FlagInv(cfg, s, e);
    }
  }

  lemma FlagInv(cfg: Config, s: State, e: Event)
    requires Inv(cfg, s) && Enabled(s, e)
    requires e.ChannelOpen? || e.ChannelPublished? || e.SuspendBegins? || e.SaysGoodbye? || e.CloseBegins?
    ensures Inv(cfg, Apply(cfg, s, e))
  {
    SameTable(cfg, s, Apply(cfg, s, e));
  }

  lemma StreamInv(cfg: Config, s: State, stream: nat)
    requires Inv(cfg, s) && stream in s.streams
    ensures Inv(cfg, Apply(cfg, s, StreamClosed(stream)))
  {
    var r := s.(streams := s.streams - {stream});
    SameTable(cfg, s, r);
    CloseSessionInv(cfg, r, s.streams[stream]);
  }

  lemma SuspendInv(cfg: Config, s: State)
    requires Inv(cfg, s) && !s.phase.Running?
    ensures Inv(cfg, Apply(cfg, s, SuspendEnds))
  {
    ReapAllInv(cfg, s);
    var r := ReapAll(s).(cyclePending := false, phase := Parked);
    SameTable(cfg, ReapAll(s), r);
    UnpublishInv(cfg, r);
  }

  lemma ResumeInv(cfg: Config, s: State)
    requires Inv(cfg, s) && s.phase.Parked?
    ensures Inv(cfg, OnResume(cfg, s))
  {
    var r := s.(phase := Running);
    SameTable(cfg, s, r);
    UnpublishInv(cfg, r);
  }

  lemma {:induction false} RunInv(cfg: Config, events: seq<Event>)
    ensures Inv(cfg, Run(cfg, events))
  {
    if events != [] {
      RunInv(cfg, events[..|events| - 1]);
      StepInv(cfg, Run(cfg, events[..|events| - 1]), events[|events| - 1]);
    }
  }

  // ─── main results ───────────────────────────────────────────────────────

  /** In every run, a session still pending holds a psm that was never pulled from under it. */
  lemma PsmNeverPulled(cfg: Config, events: seq<Event>, id: Sid)
    requires IsPending(Run(cfg, events), id)
    ensures Run(cfg, events).sessions[id].hello.Some?
    ensures Run(cfg, events).sessions[id].hello.value !in Run(cfg, events).retracted
  {
    RunInv(cfg, events);
    assert SessionOk(Run(cfg, events), id);
  }

  // ─── frames sent ────────────────────────────────────────────────────────

  /** The HELLO this server sends for a session: bare key on gatt, key, flag and psm on l2cap. */
  function HelloPayload(cfg: Config, psm: Option<nat>): seq<byte> {
    if cfg.l2cap then EncodeKey(cfg.key, PIPE_L2CAP, psm) else cfg.key
  }

  /** What a server sends: a CLOSE, or the HELLO of a session it is about to let in. */
  predicate Sendable(cfg: Config, s: State, p: Packet) {
    || p.kind == TYPE_CLOSE
    || (p.kind == TYPE_HELLO && p.payload == HelloPayload(cfg, s.psm) && (cfg.l2cap ==> s.psm.Some?) && p.id !in s.sessions)
  }

  predicate Sends(cfg: Config, s: State, r: State, p: Option<Packet>) {
    r.out == s.out + (if p.None? then [] else [p.value]) && (p.Some? ==> Sendable(cfg, s, p.value))
  }

  lemma BindOut(cfg: Config, s: State, id: Sid)
    requires id in s.sessions
    ensures Bind(cfg, s, id).out == s.out && Reap(cfg, s, id).out == s.out
  {
    assert Attach(s, id).out == s.out && Remove(s, id).out == s.out;
  }

  lemma OpenSends(cfg: Config, s: State, f: Packet, allow: bool, busy: bool) returns (p: Option<Packet>)
    requires f.id !in s.sessions
    ensures Sends(cfg, s, OnOpen(cfg, s, f, allow, busy), p)
  {
    var open := DecodeKey(f.payload);
    var verdict := Judge(cfg, s, open, allow, busy);
    if verdict.Accept? {
      p := Some(Packet(TYPE_HELLO, f.id, HelloPayload(cfg, s.psm)));
      BindOut(cfg, Insert(cfg, s, f.id, open.key), f.id);
    } else {
      p := Some(Packet(TYPE_CLOSE, f.id, if verdict.RefuseFinal? then EncodeReason(REASON_FINAL) else []));
    }
  }

  lemma CloseSends(cfg: Config, s: State, id: Sid) returns (p: Option<Packet>)
    ensures Sends(cfg, s, CloseSession(cfg, s, id), p)
  {
    p := None;
    if id in s.sessions {
      BindOut(cfg, s, id);
      p := Some(Packet(TYPE_CLOSE, id, []));
    }
  }

  lemma FrameSends(cfg: Config, s: State, bytes: seq<byte>, allow: bool, busy: bool) returns (p: Option<Packet>)
    ensures Sends(cfg, s, OnFrame(cfg, s, bytes, allow, busy), p)
  {
    p := None;
    var f := Unwire(bytes);
    if f.Some? {
      var id := f.value.id;
      if id !in s.sessions {
        if f.value.kind == TYPE_OPEN {
          p := OpenSends(cfg, s, f.value, allow, busy);
        }
      } else {
        BindOut(cfg, s, id);
        if f.value.kind == TYPE_DATA && s.sessions[id].stream.None? {
          p := CloseSends(cfg, s, id);
        }
      }
    }
  }

  /** Every step sends at most one frame, and nothing but CLOSEs and HELLOs. */
  lemma StepSends(cfg: Config, s: State, e: Event) returns (p: Option<Packet>)
    ensures Sends(cfg, s, Step(cfg, s, e), p)
  {
    p := None;
    if Enabled(s, e) {
      if e.WriteRequest? && s.phase.Running? {
        p := FrameSends(cfg, s, e.bytes, e.allow, e.busy);
      } else if e.StreamClosed? {
        p := CloseSends(cfg, s.(streams := s.streams - {e.stream}), s.streams[e.stream]);
      } else if e.PreambleRead? {
        if e.id.Some? && IsPending(s, e.id.value) {
          BindOut(cfg, s, e.id.value);
        }
      } else if e.PipeTimeout? {
        p := TimeoutSends(cfg, s, e.timer);
      } else if e.SaysGoodbye? {
        p := Some(Packet(TYPE_CLOSE, e.to, []));
      }
    }
  }

  lemma TimeoutSends(cfg: Config, s: State, timer: nat) returns (p: Option<Packet>)
    requires timer in s.timers
    ensures Sends(cfg, s, OnPipeTimeout(s, timer), p)
  {
    var Timer(id, uid) := s.timers[timer];
    p := if id in s.sessions && s.sessions[id].uid == uid && s.sessions[id].stream.None?
         then Some(Packet(TYPE_CLOSE, id, [])) else None;
  }

  /** In every run, each HELLO an l2cap server sends carries a psm not retracted at that moment. */
  lemma HelloCarriesLivePsm(cfg: Config, events: seq<Event>, e: Event, i: nat)
    requires |cfg.key| == KEY_LEN && cfg.l2cap
    requires var s := Run(cfg, events); |s.out| <= i < |Step(cfg, s, e).out|
    requires Step(cfg, Run(cfg, events), e).out[i].kind == TYPE_HELLO
    ensures var s := Run(cfg, events);
            var hello := DecodeKey(Step(cfg, s, e).out[i].payload);
            && hello.key == cfg.key && hello.psm.Some? && hello.psm == s.psm && hello.psm.value !in s.retracted
  {
    var s := Run(cfg, events);
    RunInv(cfg, events);
    var p := StepSends(cfg, s, e);
    assert p.Some? && Step(cfg, s, e).out[i] == p.value;
    HelloDecodes(cfg, s);
  }

  lemma HelloDecodes(cfg: Config, s: State)
    requires |cfg.key| == KEY_LEN && ListenerOk(s) && (cfg.l2cap ==> s.psm.Some?)
    ensures var hello := DecodeKey(HelloPayload(cfg, s.psm));
            && hello.key == cfg.key && hello.flags == Capabilities(cfg.l2cap)
            && (cfg.l2cap ==> hello.psm == s.psm && hello.psm.value !in s.retracted)
  {
    KeyRoundTrip(cfg.key, PIPE_L2CAP, s.psm);
    KeyRoundTrip(cfg.key, 0, None);
  }

  /** In every run, the armed pipe timers and the pending sessions are the same thing: each
      pending session's own timer is armed, and each armed timer is a pending session's. */
  lemma TimersArePending(cfg: Config, events: seq<Event>, id: Sid, timer: nat)
    ensures var s := Run(cfg, events);
            && (IsPending(s, id) <==> id in s.sessions && s.sessions[id].pipeTimer.Some?)
            && (timer in s.timers && s.timers[timer].id == id <==> id in s.sessions && s.sessions[id].pipeTimer == Some(timer))
            && |s.sessions| <= cfg.maxInbound
  {
    RunInv(cfg, events);
    var s := Run(cfg, events);
    assert id in s.sessions ==> SessionOk(s, id);
    assert timer in s.timers ==> TimerOk(s, timer);
  }

  /** In every run, a channel whose id was read goes to the session of that id, if one is still
      waiting for its stream, which then gets its first and only one; a channel that matches no
      waiting session, or arrives at a halted server, is destroyed. */
  lemma ChannelsMatch(cfg: Config, events: seq<Event>, channel: nat, id: Option<Sid>)
    requires Enabled(Run(cfg, events), PreambleRead(channel, id))
    ensures var s, r := Run(cfg, events), Step(cfg, Run(cfg, events), PreambleRead(channel, id));
            && channel in r.channels
            && (forall i :: r.channels[channel] == Bound(i) <==> id == Some(i) && IsPending(s, i) && !Halted(s))
            && (!r.channels[channel].Bound? ==> r.channels[channel].Destroyed?)
            && (id.Some? && IsPending(s, id.value) ==>
                  && id.value in r.sessions && r.sessions[id.value].stream.Some? && r.sessions[id.value].pipeTimer.None?
                  && s.sessions[id.value].uid !in s.binds && r.binds == s.binds + [s.sessions[id.value].uid])
            && ((id.None? || !IsPending(s, id.value)) ==> r.sessions == s.sessions && r.binds == s.binds)
  {
    var s := Run(cfg, events);
    RunInv(cfg, events);
    if id.Some? && IsPending(s, id.value) {
      BindGives(cfg, s, id.value);
    }
  }

  /** Binding a waiting session gives it its first stream and clears its timer. */
  lemma BindGives(cfg: Config, s: State, id: Sid)
    requires Inv(cfg, s) && IsPending(s, id)
    ensures var r := Bind(cfg, s, id);
            && id in r.sessions && r.sessions[id].stream.Some? && r.sessions[id].pipeTimer.None?
            && s.sessions[id].uid !in s.binds && r.binds == s.binds + [s.sessions[id].uid]
  {
    var a := Attach(s, id);
    assert SessionOk(s, id);
    assert a.sessions[id].stream.Some? && a.sessions[id].pipeTimer.None?;
    CycleKeeps(cfg, a);
  }

  lemma CycleKeeps(cfg: Config, s: State)
    ensures MaybeCycle(cfg, s).sessions == s.sessions && MaybeCycle(cfg, s).binds == s.binds
  {}

  /** In every run, no session object is ever given two streams. */
  lemma StreamsBindOnce(cfg: Config, events: seq<Event>, i: nat, j: nat)
    requires i < j < |Run(cfg, events).binds|
    ensures Run(cfg, events).binds[i] != Run(cfg, events).binds[j]
  {
    RunInv(cfg, events);
  }

  ghost predicate OnlyPending(s: State, id: Sid) {
    forall i :: IsPending(s, i) <==> i == id
  }

  /** A held rotation waits for a pending session. */
  ghost predicate RotationHeld(s: State) {
    s.cyclePending ==> AnyPending(s)
  }

  /** What leaves a rotation held for nobody on a live l2cap server: the pipe timeout of the last
      pending session, which deletes it without asking whether a rotation waits; a radio loss; and
      the final close. Every other event keeps or settles the rotation. */
  ghost predicate Strands(s: State, e: Event) {
    s.cyclePending &&
    match e
    case PipeTimeout(t) => t in s.timers && OnlyPending(s, s.timers[t].id)
    case RadioDown => true
    case CloseEnds => true
    case _ => false
  }

  lemma RotationStrandedIff(cfg: Config, s: State, e: Event)
    requires Inv(cfg, s) && cfg.l2cap && !Halted(s) && RotationHeld(s)
    ensures RotationHeld(Step(cfg, s, e)) <==> !Strands(s, e)
  {
    if Enabled(s, e) {
      if e.PipeTimeout? {
        TimeoutStrands(cfg, s, e.timer);
      } else if e.StreamClosed? {
        StreamHolds(cfg, s, e.stream);
      } else if e.WriteRequest? {
        FrameHolds(cfg, s, e.bytes, e.allow, e.busy);
      } else if e.PreambleRead? {
        PreambleHolds(cfg, s, e.channel, e.id);
      } else {
        FlagHolds(cfg, s, e);
      }
    }
  }

  lemma StreamHolds(cfg: Config, s: State, stream: nat)
    requires RotationHeld(s) && cfg.l2cap && !Halted(s) && stream in s.streams
    ensures RotationHeld(Apply(cfg, s, StreamClosed(stream)))
  {
    var r := s.(streams := s.streams - {stream});
    SamePending(s, r);
    CloseHolds(cfg, r, s.streams[stream]);
  }

  lemma PreambleHolds(cfg: Config, s: State, channel: nat, id: Option<Sid>)
    requires RotationHeld(s)
    ensures RotationHeld(OnPreamble(cfg, s, channel, id))
  {
    var r := OnPreamble(cfg, s, channel, id);
    if id.Some? && IsPending(s, id.value) {
      MaybeCycleHolds(cfg, Attach(s, id.value));
      SamePending(Bind(cfg, s, id.value), r);
    } else {
      SamePending(s, r);
    }
  }

  lemma FlagHolds(cfg: Config, s: State, e: Event)
    requires RotationHeld(s) && !Halted(s) && Enabled(s, e)
    requires !e.PipeTimeout? && !e.StreamClosed? && !e.WriteRequest? && !e.PreambleRead?
    ensures RotationHeld(Apply(cfg, s, e)) <==> !Strands(s, e)
  {
    if e.RadioDown? || e.CloseEnds? {
      NonePending(ReapAll(s));
    } else {
      SamePending(s, Apply(cfg, s, e));
    }
  }

  lemma NonePending(s: State)
    requires s.sessions == map[]
    ensures !AnyPending(s)
  {}

  lemma SamePending(s: State, r: State)
    requires r.sessions == s.sessions
    ensures AnyPending(r) == AnyPending(s)
  {
    assert forall i :: IsPending(r, i) == IsPending(s, i);
  }

  lemma TimeoutStrands(cfg: Config, s: State, timer: nat)
    requires Inv(cfg, s) && timer in s.timers && RotationHeld(s)
    ensures RotationHeld(OnPipeTimeout(s, timer)) <==> !(s.cyclePending && OnlyPending(s, s.timers[timer].id))
  {
    var id, r := s.timers[timer].id, OnPipeTimeout(s, timer);
    assert TimerOk(s, timer) && SessionOk(s, id);
    assert forall i :: IsPending(r, i) <==> IsPending(s, i) && i != id;
  }

  /** Asking always settles it: afterwards a rotation is held exactly while a session is pending,
      and otherwise the listener's psm is gone. */
  lemma MaybeCycleHolds(cfg: Config, s: State)
    ensures MaybeCycle(cfg, s).cyclePending == AnyPending(s) == AnyPending(MaybeCycle(cfg, s))
    ensures !AnyPending(s) ==> MaybeCycle(cfg, s).psm.None?
  {
    SamePending(s, MaybeCycle(cfg, s));
  }

  lemma CloseHolds(cfg: Config, s: State, id: Sid)
    requires RotationHeld(s) && cfg.l2cap && !Halted(s)
    ensures RotationHeld(CloseSession(cfg, s, id)) && (id in s.sessions ==> RotationHeld(Reap(cfg, s, id)))
  {
    if id in s.sessions {
      MaybeCycleHolds(cfg, Remove(s, id));
      SamePending(Reap(cfg, s, id), CloseSession(cfg, s, id));
    }
  }

  lemma FrameHolds(cfg: Config, s: State, bytes: seq<byte>, allow: bool, busy: bool)
    requires RotationHeld(s) && cfg.l2cap && !Halted(s)
    ensures RotationHeld(OnFrame(cfg, s, bytes, allow, busy))
  {
    var f := Unwire(bytes);
    if f.Some? {
      if f.value.id in s.sessions {
        CloseHolds(cfg, s, f.value.id);
      } else if f.value.kind == TYPE_OPEN {
        var r := OnOpen(cfg, s, f.value, allow, busy);
        if AnyPending(s) {
          var i :| IsPending(s, i);
          assert IsPending(r, i);
        }
      }
    }
  }

  /** resume before suspend has completed pulls the psm from under a handshake exactly when a
      pending session was told the psm the listener still has. */
  lemma EarlyResumePulls(cfg: Config, s: State)
    requires Inv(cfg, s) && s.phase.Draining? && !s.closing && cfg.l2cap && cfg.canRetract
    ensures (exists id :: IsPending(s, id) && s.sessions[id].hello.value in OnResume(cfg, s).retracted)
            <==> (exists id :: IsPending(s, id) && s.sessions[id].hello == s.psm)
  {
    forall id | IsPending(s, id)
      ensures s.sessions[id].hello.value in OnResume(cfg, s).retracted <==> s.sessions[id].hello == s.psm
    {
      assert SessionOk(s, id);
    }
  }

  // ─── the exceptions are real ────────────────────────────────────────────

  lemma RunThen(cfg: Config, events: seq<Event>, e: Event)
    ensures Run(cfg, events + [e]) == Step(cfg, Run(cfg, events), e)
  {
    assert (events + [e])[..|events|] == events;
  }

  function OpenWrite(id: Sid, peer: seq<byte>): Event {
    WriteRequest(Wire(Packet(TYPE_OPEN, id, EncodeKey(peer, PIPE_L2CAP, None))), true, false)
  }

  /** An l2cap server with room, and a peer it may link to. */
  predicate Ready(cfg: Config, peer: seq<byte>) {
    cfg.l2cap && cfg.maxInbound >= 2 && |peer| == KEY_LEN && peer != cfg.key
  }

  lemma OpenTaken(cfg: Config, s: State, id: Sid, peer: seq<byte>)
    requires Ready(cfg, peer) && s.phase.Running? && s.psm.Some? && |s.sessions| < cfg.maxInbound && id !in s.sessions
    ensures Step(cfg, s, OpenWrite(id, peer))
         == Notify(Insert(cfg, s, id, peer), TYPE_HELLO, id, EncodeKey(cfg.key, PIPE_L2CAP, s.psm))
  {
    WireRoundTrip(Packet(TYPE_OPEN, id, EncodeKey(peer, PIPE_L2CAP, None)));
    KeyRoundTrip(peer, PIPE_L2CAP, None);
  }

  const FIRST := Sid(0, 0, 0, 0, 0, 0, 0, 1)
  const SECOND := Sid(0, 0, 0, 0, 0, 0, 0, 2)

  function TwoOpens(peer: seq<byte>): seq<Event> {
    [ChannelPublished(1)] + [OpenWrite(FIRST, peer)] + [OpenWrite(SECOND, peer)]
  }

  /** Two sessions wait for their channels. */
  lemma TwoWait(cfg: Config, peer: seq<byte>)
    requires Ready(cfg, peer)
    ensures var s := Run(cfg, TwoOpens(peer));
            && s.sessions == map[FIRST := Session(0, None, Some(0), Some(1), peer), SECOND := Session(1, None, Some(1), Some(1), peer)]
            && s.timers == map[0 := Timer(FIRST, 0), 1 := Timer(SECOND, 1)]
            && s.psm == Some(1) && s.phase.Running? && !s.closing && !s.cyclePending
  {
    RunThen(cfg, [], ChannelPublished(1));
    RunThen(cfg, [ChannelPublished(1)], OpenWrite(FIRST, peer));
    RunThen(cfg, [ChannelPublished(1)] + [OpenWrite(FIRST, peer)], OpenWrite(SECOND, peer));
    OpenTaken(cfg, Run(cfg, [ChannelPublished(1)]), FIRST, peer);
    OpenTaken(cfg, Run(cfg, [ChannelPublished(1)] + [OpenWrite(FIRST, peer)]), SECOND, peer);
  }

  function CloseWrite(id: Sid): Event {
    WriteRequest(Wire(Packet(TYPE_CLOSE, id, [])), true, false)
  }

  /** The CLOSE of one of them asks for a rotation, which the other one holds. */
  lemma FirstCloses(cfg: Config, peer: seq<byte>)
    requires Ready(cfg, peer)
    ensures var s := Run(cfg, TwoOpens(peer) + [CloseWrite(FIRST)]);
            && s.sessions == map[SECOND := Session(1, None, Some(1), Some(1), peer)] && s.timers == map[1 := Timer(SECOND, 1)]
            && s.psm == Some(1) && s.phase.Running? && !s.closing && s.cyclePending
  {
    TwoWait(cfg, peer);
    var s := Run(cfg, TwoOpens(peer));
    RunThen(cfg, TwoOpens(peer), CloseWrite(FIRST));
    WireRoundTrip(Packet(TYPE_CLOSE, FIRST, []));
    FirstRemoved(s, peer);
    assert Step(cfg, s, CloseWrite(FIRST)) == Reap(cfg, s, FIRST);
  }

  lemma FirstRemoved(s: State, peer: seq<byte>)
    requires s.sessions == map[FIRST := Session(0, None, Some(0), Some(1), peer), SECOND := Session(1, None, Some(1), Some(1), peer)]
    requires s.timers == map[0 := Timer(FIRST, 0), 1 := Timer(SECOND, 1)]
    ensures var r := Remove(s, FIRST);
            && r.sessions == map[SECOND := Session(1, None, Some(1), Some(1), peer)] && r.timers == map[1 := Timer(SECOND, 1)]
            && IsPending(r, SECOND) && AnyPending(r)
  {
    assert IsPending(Remove(s, FIRST), SECOND);
  }

  /** Two OPENs, the CLOSE of the first and the pipe timeout of the second leave the rotation held
      for nobody. */
  lemma StrandedRun(cfg: Config, peer: seq<byte>)
    requires Ready(cfg, peer)
    ensures var s := Run(cfg, TwoOpens(peer) + [CloseWrite(FIRST)] + [PipeTimeout(1)]);
            !Halted(s) && s.sessions == map[] && s.cyclePending && !RotationHeld(s) && s.psm == Some(1)
  {
    FirstCloses(cfg, peer);
    var s := Run(cfg, TwoOpens(peer) + [CloseWrite(FIRST)]);
    RunThen(cfg, TwoOpens(peer) + [CloseWrite(FIRST)], PipeTimeout(1));
    LastTimesOut(s, s.sessions[SECOND]);
  }

  lemma LastTimesOut(s: State, last: Session)
    requires s.sessions == map[SECOND := last] && last.uid == 1 && last.stream.None? && s.timers == map[1 := Timer(SECOND, 1)]
    ensures var r := OnPipeTimeout(s, 1);
            && r.sessions == map[] && !AnyPending(r) && r.cyclePending == s.cyclePending
            && r.psm == s.psm && r.phase == s.phase && r.closing == s.closing
  {
    NonePending(OnPipeTimeout(s, 1));
  }

  /** Two OPENs and the start of a suspend: a resume now pulls the psm from under both. */
  lemma EarlyResumeRun(cfg: Config, peer: seq<byte>)
    requires Ready(cfg, peer) && cfg.canRetract
    ensures var s := Run(cfg, TwoOpens(peer) + [SuspendBegins]);
            && s.phase.Draining? && IsPending(s, FIRST) && s.sessions[FIRST].hello.Some?
            && s.sessions[FIRST].hello.value in OnResume(cfg, s).retracted
  {
    TwoWait(cfg, peer);
    RunThen(cfg, TwoOpens(peer), SuspendBegins);
    SuspendedPull(cfg, Run(cfg, TwoOpens(peer)), FIRST);
  }

  lemma SuspendedPull(cfg: Config, s: State, id: Sid)
    requires cfg.l2cap && cfg.canRetract && !s.closing && s.psm.Some? && IsPending(s, id) && s.sessions[id].hello == s.psm
    ensures var r := Step(cfg, s, SuspendBegins);
            && r.phase.Draining? && IsPending(r, id) && r.sessions[id].hello == s.psm
            && s.psm.value in OnResume(cfg, r).retracted
  {}
}
