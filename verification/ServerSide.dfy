/** The peripheral side as the source writes it: an object whose handlers update the session table,
    the armed timers and the listener in place. Each handler is proved against Server. */
module ServerSide {
  import opened Options
  import opened Bytes
  import opened Frames
  import S = Server

  class Sessions {
    const cfg: S.Config
    var sessions: map<Sid, S.Session>
    var timers: map<nat, S.Timer>
    var streams: map<nat, Sid>
    var channels: map<nat, S.Channel>
    var psm: Option<nat>
    var cyclePending: bool
    var phase: S.Phase
    var closing: bool
    var next: nat
    ghost var retracted: set<nat>
    ghost var binds: seq<nat>
    var out: seq<Packet>

    ghost function State(): S.State
      reads this
    {
      S.State(sessions, timers, streams, channels, psm, cyclePending, phase, closing, retracted, binds, out, next)
    }

    constructor (cfg: S.Config)
      ensures State() == S.INIT && this.cfg == cfg && Reachable()
    {
      this.cfg := cfg;
      sessions, timers, streams, channels := map[], map[], map[], map[];
      psm, cyclePending, phase, closing, next := None, false, S.Running, false, 0;
      retracted, binds, out := {}, [], [];
      new;
      assert State() == S.Run(cfg, []);
    }

    /** The object is in a state some run of Server reaches. */
    ghost predicate Reachable()
      reads this
    {
      exists events :: State() == S.Run(cfg, events)
    }

    /** Every event that can happen goes to its handler, and the object stays on a run. */
    method Handle(e: S.Event)
      requires Reachable() && S.Enabled(State(), e)
      modifies this
      ensures State() == S.Step(cfg, old(State()), e) && Reachable()
    {
      ghost var events :| State() == S.Run(cfg, events);
      S.RunThen(cfg, events, e);
      Dispatch(e);
      assert State() == S.Run(cfg, events + [e]);
    }

    method Dispatch(e: S.Event)
      requires S.Enabled(State(), e)
      modifies this
      ensures State() == S.Apply(cfg, old(State()), e)
    {
      match e
      case WriteRequest(bytes, allow, busy) =>
        if phase.Running? {
          OnServerFrame(bytes, allow, busy);
        }
      case ChannelOpen(channel) => OnServerChannel(channel);
      case PreambleRead(channel, id) => AcceptServer(channel, id);
      case StreamClosed(stream) => OnStreamClosed(stream);
      case PipeTimeout(timer) => PipeTimedOut(timer);
      case RadioDown => ReapAllSessions();
      case CloseEnds => ReapAllSessions();
      case SuspendEnds => SuspendTail();
      case Resume => Resume();
      case SaysGoodbye(to) => Notify(TYPE_CLOSE, to, []);
      case ChannelPublished(psm) => this.psm := Some(psm);
      case SuspendBegins => phase := S.Draining;
      case CloseBegins => closing := true;
    }

    /** What the session table promises holds of the object itself. */
    lemma PendingPsmLives(id: Sid)
      requires Reachable() && S.IsPending(State(), id)
      ensures sessions[id].hello.Some? && sessions[id].hello.value !in retracted
      ensures sessions[id].pipeTimer.Some? && sessions[id].pipeTimer.value in timers && |sessions| <= cfg.maxInbound
    {
      var events :| State() == S.Run(cfg, events);
      S.PsmNeverPulled(cfg, events, id);
      S.RunInv(cfg, events);
      assert S.SessionOk(State(), id);
    }

    method OnServerChannel(channel: nat)
      requires channel !in channels
      modifies this`channels
      ensures State() == S.Apply(cfg, old(State()), S.ChannelOpen(channel))
    {
      channels := channels[channel := if !phase.Running? || closing then S.Destroyed else S.Awaiting];
    }

    method OnStreamClosed(stream: nat)
      requires stream in streams
      modifies this
      ensures State() == S.Apply(cfg, old(State()), S.StreamClosed(stream))
    {
      var id := streams[stream];
      streams := streams - {stream};
      CloseServerSession(id);
    }

    /** _sayGoodbye for the server side: one CLOSE for each listed session, and nothing else. */
    method SayGoodbye()
      modifies this`out
      ensures |out| == |old(out)| + |sessions| && out[..|old(out)|] == old(out)
      ensures forall id | id in sessions :: Packet(TYPE_CLOSE, id, []) in out[|old(out)|..]
      ensures forall k | |old(out)| <= k < |out| :: out[k].kind == TYPE_CLOSE && out[k].id in sessions && out[k].payload == []
    {
      var todo := sessions.Keys;
      ghost var was := out;
      while todo != {}
        invariant todo <= sessions.Keys && |out| == |was| + |sessions| - |todo| && out[..|was|] == was
        invariant forall id | id in sessions.Keys - todo :: Packet(TYPE_CLOSE, id, []) in out[|was|..]
        invariant forall k | |was| <= k < |out| :: out[k].kind == TYPE_CLOSE && out[k].id in sessions && out[k].payload == []
        decreases |todo|
      {
        var id :| id in todo;
        todo := todo - {id};
        out := out + [Packet(TYPE_CLOSE, id, [])];
        assert out[|was|..] == out[..|out| - 1][|was|..] + [Packet(TYPE_CLOSE, id, [])];
      }
    }

    method Unpublish()
      modifies this`psm, this`retracted
      ensures State() == S.Unpublish(cfg, old(State()))
    {
      if psm.None? {
        return;
      }
      if cfg.canRetract {
        retracted := retracted + {psm.value};
      }
      psm := None;
    }

    /** Hold the rotation at the first session found without a stream, else rotate. */
    method MaybeCycle()
      modifies this`cyclePending, this`psm, this`retracted
      ensures State() == S.MaybeCycle(cfg, old(State()))
    {
      var todo := sessions.Keys;
      while todo != {}
        invariant todo <= sessions.Keys && State() == old(State())
        invariant forall id | id in sessions.Keys - todo :: sessions[id].stream.Some?
        decreases |todo|
      {
        var id :| id in todo;
        if sessions[id].stream.None? {
          assert S.IsPending(State(), id);
          cyclePending := true;
          return;
        }
        todo := todo - {id};
      }
      assert !S.AnyPending(State());
      cyclePending := false;
      Unpublish();
    }

    method ClearTimeout(timer: Option<nat>)
      modifies this`timers
      ensures State() == S.Disarm(old(State()), timer)
    {
      if timer.Some? {
        timers := timers - {timer.value};
      }
    }

    method ReapSession(id: Sid)
      requires id in sessions
      modifies this
      ensures State() == S.Reap(cfg, old(State()), id)
    {
      ClearTimeout(sessions[id].pipeTimer);
      sessions := sessions - {id};
      if cfg.l2cap && phase.Running? && !closing {
        MaybeCycle();
      }
    }

    method Notify(kind: byte, id: Sid, payload: seq<byte>)
      modifies this`out
      ensures State() == S.Notify(old(State()), kind, id, payload)
    {
      out := out + [Packet(kind, id, payload)];
    }

    method CloseServerSession(id: Sid)
      modifies this
      ensures State() == S.CloseSession(cfg, old(State()), id)
    {
      if id in sessions {
        ReapSession(id);
        Notify(TYPE_CLOSE, id, []);
      }
    }

    method BindServerStream(id: Sid)
      requires id in sessions
      modifies this`sessions, this`timers, this`streams, this`binds, this`next, this`cyclePending, this`psm, this`retracted
      ensures State() == S.Bind(cfg, old(State()), id)
    {
      var session := sessions[id];
      ClearTimeout(session.pipeTimer);
      sessions := sessions[id := session.(stream := Some(next), pipeTimer := None)];
      streams := streams[next := id];
      binds := binds + [session.uid];
      next := next + 1;
      assert State() == S.Attach(old(State()), id);
      if cyclePending {
        MaybeCycle();
      }
    }

    method Insert(id: Sid, peer: seq<byte>)
      modifies this
      ensures State() == S.Insert(cfg, old(State()), id, peer)
    {
      if cfg.l2cap {
        sessions := sessions[id := S.Session(next, None, Some(next), psm, peer)];
        timers := timers[next := S.Timer(id, next)];
      } else {
        sessions := sessions[id := S.Session(next, None, None, None, peer)];
      }
      next := next + 1;
    }

    /** The OPEN branch of _onServerFrame. */
    method OnOpen(f: Packet, allow: bool, busy: bool)
      requires f.id !in sessions
      modifies this
      ensures State() == S.OnOpen(cfg, old(State()), f, allow, busy)
    {
      var open := DecodeKey(f.payload);
      if !S.Accepts(open.key, cfg.key, allow) || !S.PipesMatch(open.flags, cfg.l2cap) {
        Notify(TYPE_CLOSE, f.id, EncodeReason(REASON_FINAL));
        return;
      }
      if (cfg.l2cap && psm.None?) || |sessions| >= cfg.maxInbound || (!S.InitiatorWins(open.key, cfg.key) && busy) {
        Notify(TYPE_CLOSE, f.id, []);
        return;
      }
      Insert(f.id, open.key);
      if cfg.l2cap {
        Notify(TYPE_HELLO, f.id, EncodeKey(cfg.key, PIPE_L2CAP, psm));
      } else {
        BindServerStream(f.id);
        Notify(TYPE_HELLO, f.id, cfg.key);
      }
    }

    method OnServerFrame(bytes: seq<byte>, allow: bool, busy: bool)
      modifies this
      ensures State() == S.OnFrame(cfg, old(State()), bytes, allow, busy)
    {
      var f := Unwire(bytes);
      if f.None? || (if f.value.kind == TYPE_OPEN then f.value.id in sessions else f.value.id !in sessions) {
        return;
      }
      if f.value.kind == TYPE_OPEN {
        OnOpen(f.value, allow, busy);
      } else if f.value.kind == TYPE_DATA {
        if sessions[f.value.id].stream.None? {
          CloseServerSession(f.value.id);
        }
      } else if f.value.kind == TYPE_CLOSE {
        ReapSession(f.value.id);
      }
    }

    /** acceptServer once the preamble resolved. */
    method AcceptServer(channel: nat, id: Option<Sid>)
      modifies this
      ensures State() == S.OnPreamble(cfg, old(State()), channel, id)
    {
      if id.None? || id.value !in sessions || sessions[id.value].stream.Some? {
        channels := channels[channel := S.Destroyed];
        return;
      }
      var halted := !phase.Running? || closing;
      BindServerStream(id.value);
      channels := channels[channel := if halted then S.Destroyed else S.Bound(id.value)];
    }

    /** The callback of a session's pipe timer. */
    method PipeTimedOut(timer: nat)
      requires timer in timers
      modifies this
      ensures State() == S.OnPipeTimeout(old(State()), timer)
    {
      var id, uid := timers[timer].id, timers[timer].uid;
      timers := timers - {timer};
      if id !in sessions || sessions[id].uid != uid {
        return;
      }
      if sessions[id].stream.Some? {
        sessions := sessions[id := sessions[id].(pipeTimer := None)];
        return;
      }
      sessions := sessions - {id};
      Notify(TYPE_CLOSE, id, []);
    }

    method ReapAllSessions()
      modifies this
      ensures State() == S.ReapAll(old(State()))
    {
      var todo := sessions.Keys;
      ghost var was, done := old(State()), {};
      while todo != {}
        invariant todo + done == sessions.Keys && State() == was.(timers := timers)
        invariant timers == S.ClearTimers(was, done)
        decreases |todo|
      {
        var id :| id in todo;
        ClearOne(was, done, id);
        ClearTimeout(sessions[id].pipeTimer);
        todo, done := todo - {id}, done + {id};
      }
      assert done == was.sessions.Keys;
      sessions := map[];
    }

    static lemma ClearOne(s: S.State, ids: set<Sid>, id: Sid)
      requires ids <= s.sessions.Keys && id in s.sessions
      ensures S.ClearTimers(s, ids + {id}) == S.Disarm(s.(timers := S.ClearTimers(s, ids)), s.sessions[id].pipeTimer).timers
    {
      forall t | t in s.timers
        ensures S.OwnsTimer(s, ids + {id}, t) <==> S.OwnsTimer(s, ids, t) || s.sessions[id].pipeTimer == Some(t)
      {
        assert id in ids + {id};
      }
    }

    /** The tail of suspend, after its drain. */
    method SuspendTail()
      requires !phase.Running?
      modifies this
      ensures State() == S.Apply(cfg, old(State()), S.SuspendEnds)
    {
      ReapAllSessions();
      cyclePending, phase := false, S.Parked;
      if cfg.isMac {
        Unpublish();
      }
    }

    method Resume()
      requires phase.Parked?
      modifies this
      ensures State() == S.Apply(cfg, old(State()), S.Resume)
    {
      phase := S.Running;
      if !closing && cfg.l2cap {
        Unpublish();
      }
    }
  }
}
