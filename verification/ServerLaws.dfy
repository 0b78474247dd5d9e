/** What a server's events do to its table, its listener and what it sends, written out on the
    state before and after. */
module ServerLaws {
  import opened Options
  import opened Bytes
  import opened Frames
  import opened Server

  // ─── the end of a session ───────────────────────────────────────────────

  ghost predicate Waits(sessions: map<Sid, Session>) {
    exists id :: id in sessions && sessions[id].stream.None?
  }

  /** The listener is retracted at once, or the rotation is held for whoever still waits. */
  ghost predicate Rotated(cfg: Config, s: State, r: State) {
    if Waits(r.sessions) then r.cyclePending && r.psm == s.psm && r.retracted == s.retracted
    else
      && !r.cyclePending && r.psm.None?
      && r.retracted == s.retracted + if cfg.canRetract && s.psm.Some? then {s.psm.value} else {}
  }

  ghost predicate Unrotated(s: State, r: State) {
    r.cyclePending == s.cyclePending && r.psm == s.psm && r.retracted == s.retracted
  }

  /** The session is off the table with its timer, and a live l2cap listener is rotated. */
  ghost predicate Ended(cfg: Config, s: State, r: State, id: Sid)
    requires id in s.sessions
  {
    && r.sessions == s.sessions - {id}
    && r.timers == (if s.sessions[id].pipeTimer.Some? then s.timers - {s.sessions[id].pipeTimer.value} else s.timers)
    && (if cfg.l2cap && s.phase.Running? && !s.closing then Rotated(cfg, s, r) else Unrotated(s, r))
    && r.phase == s.phase && r.closing == s.closing && r.channels == s.channels && r.binds == s.binds
  }

  lemma CycleRotates(cfg: Config, s: State)
    ensures Rotated(cfg, s, MaybeCycle(cfg, s)) && MaybeCycle(cfg, s).sessions == s.sessions
  {
    if Waits(s.sessions) {
      var id :| id in s.sessions && s.sessions[id].stream.None?;
      assert IsPending(s, id);
    } else {
      assert forall id :: !IsPending(s, id);
    }
  }

  lemma ReapEnds(cfg: Config, s: State, id: Sid)
    requires id in s.sessions
    ensures Ended(cfg, s, Reap(cfg, s, id), id)
    ensures Reap(cfg, s, id).streams == s.streams && Reap(cfg, s, id).out == s.out
  {
    var q := Remove(s, id);
    CycleRotates(cfg, q);
    CycleSpares(cfg, q);
  }

  lemma CycleSpares(cfg: Config, s: State)
    ensures var r := MaybeCycle(cfg, s); r == s.(cyclePending := r.cyclePending, psm := r.psm, retracted := r.retracted)
    ensures s.retracted <= MaybeCycle(cfg, s).retracted
  {}

  /** Main: when a session's stream closes, the session leaves the table, its central is told, and a
      live listener is rotated: at once if nobody else waits, else when the last one is done. */
  lemma StreamCloseEnds(cfg: Config, s: State, stream: nat)
    requires stream in s.streams
    ensures var r, id := Step(cfg, s, StreamClosed(stream)), s.streams[stream];
            && r.streams == s.streams - {stream}
            && if id in s.sessions then Ended(cfg, s, r, id) && r.out == s.out + [Packet(TYPE_CLOSE, id, [])]
               else r == s.(streams := s.streams - {stream})
  {
    var q := s.(streams := s.streams - {stream});
    if s.streams[stream] in s.sessions {
      ReapEnds(cfg, q, s.streams[stream]);
    }
  }

  /** Main: so it does when its central sends CLOSE, without an answer, or DATA before it has a
      stream; nothing else a listed session's central sends touches the table. */
  lemma FrameEnds(cfg: Config, s: State, buf: seq<byte>, p: Packet, allow: bool, busy: bool)
    requires Unwire(buf) == Some(p) && p.id in s.sessions && s.phase.Running?
    ensures var r := Step(cfg, s, WriteRequest(buf, allow, busy));
            if p.kind == TYPE_CLOSE then Ended(cfg, s, r, p.id) && r.out == s.out && r.streams == s.streams
            else if p.kind == TYPE_DATA && s.sessions[p.id].stream.None?
            then Ended(cfg, s, r, p.id) && r.out == s.out + [Packet(TYPE_CLOSE, p.id, [])] && r.streams == s.streams
            else r == s
  {
    ReapEnds(cfg, s, p.id);
  }

  /** Frames no session or suspended server takes. */
  lemma FrameIgnored(cfg: Config, s: State, buf: seq<byte>, allow: bool, busy: bool)
    requires || !s.phase.Running? || Unwire(buf).None?
             || (Unwire(buf).value.id !in s.sessions && Unwire(buf).value.kind != TYPE_OPEN)
    ensures Step(cfg, s, WriteRequest(buf, allow, busy)) == s
  {}

  /** A pipe timer that fires takes its waiting session off the table and tells its central; it
      neither rotates the listener nor settles a rotation that is held. */
  lemma TimeoutEnds(cfg: Config, s: State, timer: nat)
    requires Inv(cfg, s) && timer in s.timers
    ensures var r, id := Step(cfg, s, PipeTimeout(timer)), s.timers[timer].id;
            && r.sessions == s.sessions - {id} && id in s.sessions && s.sessions[id].stream.None?
            && r.timers == s.timers - {timer} && Unrotated(s, r)
            && r.out == s.out + [Packet(TYPE_CLOSE, id, [])]
  {
    assert TimerOk(s, timer) && SessionOk(s, s.timers[timer].id);
  }

  /** Main: once a session's end has rotated the listener with nobody waiting, no later HELLO carries
      the psm the listener had. */
  lemma RotatedForGood(cfg: Config, before: seq<Event>, e: Event, id: Sid, after: seq<Event>, last: Event, i: nat)
    requires |cfg.key| == KEY_LEN && cfg.l2cap && cfg.canRetract
    requires var s, m := Run(cfg, before), Run(cfg, before + [e]);
             && s.phase.Running? && !s.closing && s.psm.Some? && id in s.sessions && !Waits(s.sessions - {id})
             && Ended(cfg, s, m, id)
    requires var s := Run(cfg, before + [e] + after);
             |s.out| <= i < |Step(cfg, s, last).out| && Step(cfg, s, last).out[i].kind == TYPE_HELLO
    ensures var s := Run(cfg, before + [e] + after);
            DecodeKey(Step(cfg, s, last).out[i].payload).psm != Run(cfg, before).psm
  {
    RetractedStays(cfg, before + [e], after);
    HelloCarriesLivePsm(cfg, before + [e] + after, last, i);
  }

  lemma BindRetracts(cfg: Config, s: State, id: Sid)
    requires id in s.sessions
    ensures s.retracted <= Reap(cfg, s, id).retracted && s.retracted <= Bind(cfg, s, id).retracted
  {
    CycleSpares(cfg, Remove(s, id));
    CycleSpares(cfg, Attach(s, id));
  }

  lemma OpenRetracts(cfg: Config, s: State, p: Packet, allow: bool, busy: bool)
    requires p.id !in s.sessions
    ensures s.retracted <= OnOpen(cfg, s, p, allow, busy).retracted
  {
    var open := DecodeKey(p.payload);
    if Judge(cfg, s, open, allow, busy).Accept? {
      var r := Insert(cfg, s, p.id, open.key);
      assert r.retracted == s.retracted && p.id in r.sessions;
      BindRetracts(cfg, r, p.id);
    }
  }

  lemma KnownRetracts(cfg: Config, s: State, buf: seq<byte>, p: Packet, allow: bool, busy: bool)
    requires Unwire(buf) == Some(p) && p.id in s.sessions
    ensures s.retracted <= OnFrame(cfg, s, buf, allow, busy).retracted
  {
    BindRetracts(cfg, s, p.id);
  }

  lemma FrameRetracts(cfg: Config, s: State, buf: seq<byte>, allow: bool, busy: bool)
    ensures s.retracted <= OnFrame(cfg, s, buf, allow, busy).retracted
  {
    var f := Unwire(buf);
    if f.Some? {
      if f.value.id in s.sessions {
        KnownRetracts(cfg, s, buf, f.value, allow, busy);
      } else if f.value.kind == TYPE_OPEN {
        OpenRetracts(cfg, s, f.value, allow, busy);
      }
    }
  }

  lemma StepRetracts(cfg: Config, s: State, e: Event)
    ensures s.retracted <= Step(cfg, s, e).retracted
  {
    if Enabled(s, e) {
      match e
      case WriteRequest(buf, allow, busy) => FrameRetracts(cfg, s, buf, allow, busy);
      case StreamClosed(stream) =>
        if s.streams[stream] in s.sessions { BindRetracts(cfg, s.(streams := s.streams - {stream}), s.streams[stream]); }
      case PreambleRead(channel, id) =>
        if id.Some? && IsPending(s, id.value) { BindRetracts(cfg, s, id.value); }
      case _ => OtherRetracts(cfg, s, e);
    }
  }

  lemma OtherRetracts(cfg: Config, s: State, e: Event)
    requires Enabled(s, e) && !e.WriteRequest? && !e.StreamClosed? && !e.PreambleRead?
    ensures s.retracted <= Apply(cfg, s, e).retracted
  {}

  lemma {:induction false} RetractedStays(cfg: Config, before: seq<Event>, after: seq<Event>)
    ensures Run(cfg, before).retracted <= Run(cfg, before + after).retracted
  {
    if after == [] {
      assert before + after == before;
    } else {
      var n := |after| - 1;
      RetractedStays(cfg, before, after[..n]);
      assert before + after == before + after[..n] + [after[n]];
      RunThen(cfg, before + after[..n], after[n]);
      StepRetracts(cfg, Run(cfg, before + after[..n]), after[n]);
    }
  }

  // ─── the answer to an OPEN ──────────────────────────────────────────────

  /** The pair never links: the key is malformed, our own or unwanted, or the pipes differ. */
  predicate Never(cfg: Config, open: KeyPayload, allow: bool) {
    |open.key| != KEY_LEN || open.key == cfg.key || !allow || (open.flags as int % 2 == 1) != cfg.l2cap
  }

  /** Not now: no listener yet, the table is full, or we are dialling and our key is the smaller. */
  predicate NotNow(cfg: Config, s: State, open: KeyPayload, busy: bool) {
    (cfg.l2cap && s.psm.None?) || |s.sessions| >= cfg.maxInbound || (busy && !Less(open.key, cfg.key))
  }

  /** One CLOSE for the session, and nothing else. */
  predicate Refused(s: State, r: State, id: Sid, reason: byte) {
    && |r.out| == |s.out| + 1 && r == s.(out := s.out + [r.out[|s.out|]])
    && r.out[|s.out|].kind == TYPE_CLOSE && r.out[|s.out|].id == id && DecodeReason(r.out[|s.out|].payload) == reason
  }

  /** The session is listed for the key and greeted with ours: waiting with a timer armed and the
      live psm told, or bound at once. */
  predicate Greeted(cfg: Config, s: State, r: State, id: Sid, key: seq<byte>) {
    && |r.out| == |s.out| + 1 && r.out == s.out + [r.out[|s.out|]]
    && r.out[|s.out|].kind == TYPE_HELLO && r.out[|s.out|].id == id
    && (var hello := DecodeKey(r.out[|s.out|].payload);
        hello.key == cfg.key && hello.flags == (if cfg.l2cap then 1 else 0) && (cfg.l2cap ==> hello.psm == s.psm))
    && id in r.sessions && r.sessions == s.sessions[id := r.sessions[id]] && r.sessions[id].peer == key
    && (var x := r.sessions[id];
        if cfg.l2cap then x.stream.None? && x.hello == s.psm && x.pipeTimer == Some(s.next) && r.timers == s.timers[s.next := Timer(id, x.uid)]
        else x.stream.Some? && x.pipeTimer.None? && r.timers == s.timers && x.stream.value in r.streams && r.streams[x.stream.value] == id)
  }

  /** Main: a fresh OPEN is refused for good exactly when the pair can never link, refused without a
      reason exactly when it could but not now, and otherwise let in and greeted. */
  lemma OpenAnswered(cfg: Config, s: State, buf: seq<byte>, p: Packet, allow: bool, busy: bool)
    requires Unwire(buf) == Some(p) && p.kind == TYPE_OPEN && p.id !in s.sessions && s.phase.Running?
    requires |cfg.key| == KEY_LEN && ListenerOk(s)
    ensures var r, open := Step(cfg, s, WriteRequest(buf, allow, busy)), DecodeKey(p.payload);
            if Never(cfg, open, allow) then Refused(s, r, p.id, REASON_FINAL)
            else if NotNow(cfg, s, open, busy) then Refused(s, r, p.id, 0)
            else Greeted(cfg, s, r, p.id, open.key)
  {
    var open := DecodeKey(p.payload);
    JudgedBy(cfg, s, open, allow, busy);
    if Never(cfg, open, allow) || NotNow(cfg, s, open, busy) {
      OpenRefused(cfg, s, p, allow, busy);
    } else {
      OpenGreeted(cfg, s, p, allow, busy);
    }
  }

  lemma JudgedBy(cfg: Config, s: State, open: KeyPayload, allow: bool, busy: bool)
    ensures var v := Judge(cfg, s, open, allow, busy);
            && (v.RefuseFinal? <==> Never(cfg, open, allow))
            && (v.Accept? <==> !Never(cfg, open, allow) && !NotNow(cfg, s, open, busy))
  {}

  lemma OpenRefused(cfg: Config, s: State, p: Packet, allow: bool, busy: bool)
    requires p.id !in s.sessions && !Judge(cfg, s, DecodeKey(p.payload), allow, busy).Accept?
    ensures Refused(s, OnOpen(cfg, s, p, allow, busy), p.id,
                    if Judge(cfg, s, DecodeKey(p.payload), allow, busy).RefuseFinal? then REASON_FINAL else 0)
  {}

  lemma OpenGreeted(cfg: Config, s: State, p: Packet, allow: bool, busy: bool)
    requires p.id !in s.sessions && Judge(cfg, s, DecodeKey(p.payload), allow, busy).Accept?
    requires |cfg.key| == KEY_LEN && ListenerOk(s)
    ensures Greeted(cfg, s, OnOpen(cfg, s, p, allow, busy), p.id, DecodeKey(p.payload).key)
  {
    HelloDecodes(cfg, s);
    Admission(cfg, s, p.id, DecodeKey(p.payload).key);
  }

  lemma Admission(cfg: Config, s: State, id: Sid, key: seq<byte>)
    requires id !in s.sessions
    ensures var r := Insert(cfg, s, id, key);
            && id in r.sessions && (r.cyclePending ==> MaybeCycle(cfg, Attach(r, id)).sessions == Attach(r, id).sessions)
            && BindsAtOnce(r, Bind(cfg, r, id), id)
  {
    var r := Insert(cfg, s, id, key);
    CycleKeeps(cfg, Attach(r, id));
  }

  predicate BindsAtOnce(s: State, r: State, id: Sid)
    requires id in s.sessions
  {
    && id in r.sessions && r.sessions == s.sessions[id := s.sessions[id].(stream := Some(s.next), pipeTimer := None)]
    && r.timers == (if s.sessions[id].pipeTimer.Some? then s.timers - {s.sessions[id].pipeTimer.value} else s.timers)
    && r.streams == s.streams[s.next := id] && r.out == s.out
  }

  // ─── radio and lifecycle ────────────────────────────────────────────────

  /** Losing the radio, and the end of a close, leave no session and no timer, and the listener be. */
  lemma RadioEmpties(cfg: Config, s: State, e: Event)
    requires Inv(cfg, s) && (e.RadioDown? || e.CloseEnds?)
    ensures var r := Step(cfg, s, e); r.sessions == map[] && r.timers == map[] && Unrotated(s, r) && r.out == s.out
  {
    AllOwned(cfg, s);
  }

  /** Every timer belongs to a listed session. */
  lemma AllOwned(cfg: Config, s: State)
    requires Inv(cfg, s)
    ensures ReapAll(s).timers == map[]
  {
    forall t | t in s.timers
      ensures OwnsTimer(s, s.sessions.Keys, t)
    {
      assert TimerOk(s, t) && s.timers[t].id in s.sessions.Keys;
    }
  }

  /** The rest of a suspend does that too, forgets a held rotation, and on macOS alone retracts. */
  lemma SuspendEmpties(cfg: Config, s: State)
    requires Inv(cfg, s) && !s.phase.Running?
    ensures var r := Step(cfg, s, SuspendEnds);
            && r.sessions == map[] && r.timers == map[] && !r.cyclePending && r.phase.Parked?
            && r.psm == (if cfg.isMac then None else s.psm)
            && r.retracted == s.retracted + if cfg.isMac && cfg.canRetract && s.psm.Some? then {s.psm.value} else {}
  {
    AllOwned(cfg, s);
  }

  /** A resume takes an l2cap server's old listener down, unless it is closing. */
  lemma ResumeRetracts(cfg: Config, s: State)
    requires s.phase.Parked?
    ensures var r := Step(cfg, s, Resume);
            && r.phase.Running? && r.sessions == s.sessions
            && (if cfg.l2cap && !s.closing
                then r.psm.None? && r.retracted == s.retracted + if cfg.canRetract && s.psm.Some? then {s.psm.value} else {}
                else Unrotated(s, r))
  {}

  /** A channel that opens waits for its id, or is destroyed at a halted server; an announced psm is
      taken; a goodbye is one CLOSE; suspend and close begin with a flag. */
  lemma PlainEvents(cfg: Config, s: State, channel: nat, psm: nat, to: Sid)
    ensures channel !in s.channels ==>
      Step(cfg, s, ChannelOpen(channel)) == s.(channels := s.channels[channel := if s.phase.Running? && !s.closing then Awaiting else Destroyed])
    ensures psm < 0x1_0000 && psm !in s.retracted ==> Step(cfg, s, ChannelPublished(psm)) == s.(psm := Some(psm))
    ensures s.phase.Draining? && to in s.sessions ==> Step(cfg, s, SaysGoodbye(to)) == s.(out := s.out + [Packet(TYPE_CLOSE, to, [])])
    ensures Step(cfg, s, SuspendBegins) == s.(phase := Draining)
    ensures Step(cfg, s, CloseBegins) == s.(closing := true)
  {}

  /** What binding a waiting session does to the listener: a held rotation is carried out if that
      was the last one waiting. */
  lemma BindRotates(cfg: Config, s: State, channel: nat, id: Sid)
    requires Enabled(s, PreambleRead(channel, Some(id))) && id in s.sessions && s.sessions[id].stream.None?
    ensures var r := Step(cfg, s, PreambleRead(channel, Some(id)));
            && id in r.sessions && r.sessions[id].stream.Some? && r.sessions - {id} == s.sessions - {id}
            && if s.cyclePending then Rotated(cfg, s, r) else Unrotated(s, r)
  {
    CycleRotates(cfg, Attach(s, id));
  }
}
