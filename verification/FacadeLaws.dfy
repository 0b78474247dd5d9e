/** What power cycles and topic changes make of the facade's transport. */
module FacadeLaws {
  import opened Options
  import opened Facade

  // ─── waking ─────────────────────────────────────────────────────────────

  /** Main: in every interleaving, a start or resume that wakes a sleeping transport finds it current
      and never power-cycled: a cycled one is abandoned instead. */
  lemma WakesOnlyUncycled(supported: bool, events: seq<Event>, e: Event, t: nat)
    requires e.Start? || e.Resume?
    requires var s, r := Run(Init(supported), events), Run(Init(supported), events + [e]);
             t in s.transports && !Awake(s.transports[t]) && t in r.transports && Awake(r.transports[t])
    ensures var s, r := Run(Init(supported), events), Run(Init(supported), events + [e]);
            s.current == Some(t) && !s.transports[t].cycled && r.current == Some(t) && r.gen == s.gen
  {
    RunInv(supported, events);
    assert (events + [e])[..|events|] == events;
    StepWakes(Run(Init(supported), events), e, t);
  }

  lemma StepWakes(s: State, e: Event, t: nat)
    requires Inv(s) && (e.Start? || e.Resume?)
    requires t in s.transports && !Awake(s.transports[t]) && t in Step(s, e).transports && Awake(Step(s, e).transports[t])
    ensures s.current == Some(t) && !s.transports[t].cycled && Step(s, e).current == Some(t) && Step(s, e).gen == s.gen
  {
    if e.Start? {
      ActivateWakes(s.(started := true), t);
    } else {
      ActivateWakes(s.(suspended := false), t);
    }
  }

  lemma ActivateWakes(s: State, t: nat)
    requires t in s.transports && (s.current != Some(t) ==> s.transports[t].paused) && !Awake(s.transports[t])
    ensures var r := Activate(s);
            t in r.transports && Awake(r.transports[t]) ==>
              s.current == Some(t) && !s.transports[t].cycled && r.current == Some(t) && r.gen == s.gen
  {
    if NeedsRebuild(s) {
      AbandonSleeps(s, t);
    }
  }

  lemma AbandonSleeps(s: State, t: nat)
    requires t in s.transports && !Awake(s.transports[t])
    ensures var r := Abandon(s, Activating); t in r.transports && !Awake(r.transports[t])
  {
    PausedSleeps(s, t);
    assert Abandon(s, Activating).transports == if s.current.Some? then SetPaused(s, true).transports else s.transports;
  }

  lemma PausedSleeps(s: State, t: nat)
    requires t in s.transports && !Awake(s.transports[t])
    ensures t in SetPaused(s, true).transports && !Awake(SetPaused(s, true).transports[t])
  {}

  /** Main: a start or resume that goes live abandons a power-cycled transport at once and otherwise
      keeps the one it has. */
  lemma GoesLive(s: State, e: Event)
    requires Inv(s) && Goes(s, e)
    ensures var r := Step(s, e);
            if s.current.Some? && !s.transports[s.current.value].cycled then
              r.current == s.current && r.taken == s.taken && r.tasks == s.tasks && !r.transports[s.current.value].paused
            else
              && r.current.None? && r.taken == s.taken + (if s.current.Some? then [s.current.value] else [])
              && r.tasks == s.tasks[s.next := Task(Activating, s.current, false)]
              && (s.current.Some? ==> r.transports[s.current.value].paused)
  {}

  /** A start that is not suspended, or a resume of what is started. */
  predicate Goes(s: State, e: Event) {
    || (e.Start? && s.supported && !s.started && !s.closing && !s.closed && !s.suspended)
    || (e.Resume? && s.suspended && s.started)
  }

  // ─── whole calls ────────────────────────────────────────────────────────

  /** Built anew: one generation on, the one before taken with its managers gone. */
  predicate Renewal(s: State, r: State, t: nat) {
    && r.gen == s.gen + 1 && r.current == Some(r.gen) && r.gen in r.transports && r.transports[r.gen] == FRESH
    && t in r.taken && t in r.gone && t in r.transports && r.transports[t].paused
  }

  lemma AbandonedFor(s: State, kind: Kind, t: nat)
    requires Tidy(s) && Wanted(s) && s.supported && kind != Retopic && s.current == Some(t)
    ensures Renewal(s, Step(Step(Abandon(s, kind), Retire(s.next)), Continue(s.next)), t)
  {
    var a := Abandon(s, kind);
    var b := Step(a, Retire(s.next));
    assert a.tasks == map[s.next := Task(kind, Some(t), false)];
    assert b.tasks == map[s.next := Task(kind, Some(t), true)] && b.gone == s.gone + {t};
    assert t in s.transports && Accounted(s, t);
    assert t <= s.gen;
  }

  /** Main: a whole start or resume that goes live on a power-cycled transport ends with a fresh one,
      the old one abandoned and its managers retired. */
  lemma CycledIsReplaced(supported: bool, calls: seq<Call>, c: Call, t: nat)
    requires c.Starting? || c.Resuming?
    requires var s := Calls(supported, calls);
             && s.current == Some(t) && t in s.transports && s.transports[t].cycled && !Live(s)
             && Live(Calls(supported, calls + [c]))
    ensures Renewal(Calls(supported, calls), Calls(supported, calls + [c]), t)
  {
    var s := Calls(supported, calls);
    CallsIntent(supported, calls);
    assert (calls + [c])[..|calls|] == calls;
    if c.Starting? {
      StartReplaces(s, t);
    } else {
      ResumeReplaces(s, t);
    }
  }

  lemma StartReplaces(s: State, t: nat)
    requires Intent(s) && s.current == Some(t) && s.transports[t].cycled && !Live(s) && Live(Whole(s, Starting))
    ensures Renewal(s, Whole(s, Starting), t)
  {
    RunThree(s, Start, Retire(s.next), Continue(s.next));
    var r := s.(started := true);
    SameInv(s, r);
    if s.supported && !s.started && !s.closing && !s.closed && !s.suspended {
      AbandonedFor(r, Activating, t);
    } else {
      Idle(OnStart(s), s.next);
    }
  }

  lemma ResumeReplaces(s: State, t: nat)
    requires Intent(s) && s.current == Some(t) && s.transports[t].cycled && !Live(s) && Live(Whole(s, Resuming))
    ensures Renewal(s, Whole(s, Resuming), t)
  {
    RunThree(s, Resume, Retire(s.next), Continue(s.next));
    var r := s.(suspended := false);
    SameInv(s, r);
    if s.suspended && s.started {
      AbandonedFor(r, Activating, t);
    } else {
      Idle(OnResume(s), s.next);
    }
  }

  // ─── power cycles while awake ───────────────────────────────────────────

  /** The current transport has not asked for its rebuild yet, unless the owner is closing. */
  ghost predicate NotAsked(s: State) {
    s.current.Some? && !s.closing ==> s.current.value in s.transports && !s.transports[s.current.value].healing
  }

  lemma StepNotAsked(s: State, e: Event)
    requires Inv(s) && NotAsked(s) && (s.closed ==> s.closing)
    ensures NotAsked(Step(s, e)) && (Step(s, e).closed ==> Step(s, e).closing)
  {
    if Enabled(s, e) {
      match e
      case RadioUp(t) => UpNotAsked(s, t);
      case Start => WakeNotAsked(s.(started := true));
      case Resume => WakeNotAsked(s.(suspended := false));
      case _ => RestNotAsked(s, e);
    }
  }

  lemma WakeNotAsked(s: State)
    requires NotAsked(s) && (s.closed ==> s.closing)
    ensures NotAsked(Activate(s)) && (Activate(s).closed ==> Activate(s).closing)
  {}

  lemma RestNotAsked(s: State, e: Event)
    requires Enabled(s, e) && !e.RadioUp? && !e.Start? && !e.Resume?
    requires NotAsked(s) && (s.closed ==> s.closing)
    ensures NotAsked(Apply(s, e)) && (Apply(s, e).closed ==> Apply(s, e).closing)
  {}

  lemma UpNotAsked(s: State, t: nat)
    requires Inv(s) && NotAsked(s) && (s.closed ==> s.closing) && t in s.transports
    ensures NotAsked(PoweredOn(s, t)) && (PoweredOn(s, t).closed ==> PoweredOn(s, t).closing)
  {
    assert PausedUnlessCurrent(s, t);
  }

  lemma {:induction false} RunNotAsked(supported: bool, events: seq<Event>)
    ensures NotAsked(Run(Init(supported), events)) && (Run(Init(supported), events).closed ==> Run(Init(supported), events).closing)
  {
    if events != [] {
      var front := events[..|events| - 1];
      RunInv(supported, front);
      RunNotAsked(supported, front);
      StepNotAsked(Run(Init(supported), front), events[|events| - 1]);
    }
  }

  /** Main: a power cycle of a live node's transport, once the radio is back and the rebuild has run,
      leaves a fresh transport awake in its place. */
  lemma PowerCycleRenews(supported: bool, calls: seq<Call>, t: nat)
    requires var s := Calls(supported, calls); Live(s) && s.current == Some(t)
    ensures var s, r := Calls(supported, calls), Calls(supported, calls + [PowerDown(t)] + [PowerUp(t)]);
            Renewal(s, r, t) && CurrentAwake(r)
  {
    var s := Calls(supported, calls);
    CallsIntent(supported, calls);
    var events := CallsAreRuns(supported, calls);
    RunNotAsked(supported, events);
    assert (calls + [PowerDown(t)])[..|calls|] == calls;
    assert (calls + [PowerDown(t)] + [PowerUp(t)])[..|calls| + 1] == calls + [PowerDown(t)];
    var d := Whole(s, PowerDown(t));
    PowerDownIntent(s, t);
    RunOne(s, RadioDown(t));
    assert d.transports[t] == s.transports[t].(cycled := true, down := true);
    UpRenews(d, t);
  }

  lemma UpRenews(s: State, t: nat)
    requires Intent(s) && Live(s) && s.current == Some(t) && s.transports[t].down && !s.transports[t].healing
    ensures Renewal(s, Whole(s, PowerUp(t)), t)
  {
    ScriptUp(s, t);
    var r := UpAbandons(s, t);
    RenewedFrom(s, r, t, Step(s, RadioUp(t)));
  }

  lemma ScriptUp(s: State, t: nat)
    ensures Whole(s, PowerUp(t)) == Step(Step(Step(s, RadioUp(t)), Retire(s.next)), Continue(s.next))
  {
    RunThree(s, RadioUp(t), Retire(s.next), Continue(s.next));
  }

  lemma RenewedFrom(s: State, r: State, t: nat, a: State)
    requires Tidy(r) && Wanted(r) && r.supported && r.current == Some(t) && r.gen == s.gen && r.next == s.next
    requires a == Abandon(r, Rebuilding)
    ensures Renewal(s, Step(Step(a, Retire(s.next)), Continue(s.next)), t)
  {
    AbandonedFor(r, Rebuilding, t);
  }

  lemma UpAbandons(s: State, t: nat) returns (r: State)
    requires Intent(s) && Live(s) && s.current == Some(t) && s.transports[t].down && !s.transports[t].healing
    ensures Tidy(r) && Wanted(r) && r.supported && r.current == Some(t) && r.gen == s.gen && r.next == s.next
    ensures Step(s, RadioUp(t)) == Abandon(r, Rebuilding)
  {
    r := s.(transports := s.transports[t := s.transports[t].(down := false, healing := true)]);
    assert PausedUnlessCurrent(s, t);
    TransportInv(s, r, t, r.transports[t]);
  }

  // ─── topic changes ──────────────────────────────────────────────────────

  /** A changed topic bounces a live transport: asleep at once, awake again when the call is done.
      Otherwise nothing happens. */
  lemma TopicBounces(s: State, changed: bool)
    requires Intent(s)
    ensures var m, r := Step(s, SetTopic(changed)), Whole(s, Topic(changed));
            if changed && Live(s) then
              && s.current.Some? && m.current == s.current && m.transports[m.current.value].paused
              && m.tasks == map[s.next := Task(Retopic, None, false)] && r.current == s.current && CurrentAwake(r)
            else m == s && r == s
  {
    RunTwo(s, SetTopic(changed), Continue(s.next));
    TopicIntent(s, changed);
    var m := Step(s, SetTopic(changed));
    if changed && Live(s) {
      assert m.tasks == map[s.next := Task(Retopic, None, false)];
    }
  }

  /** The end of that bounce asks nothing about the radio: it wakes the current transport, whichever it
      is by then, and so wakes a power-cycled one exactly if that one is cycled. */
  lemma BounceWakes(s: State, j: nat)
    requires Inv(s) && j in s.tasks && s.tasks[j] == Task(Retopic, None, false) && Live(s) && s.current.Some?
    ensures var r, t := Step(s, Continue(j)), s.current.value;
            && r.current == s.current && r.transports == s.transports[t := s.transports[t].(paused := false)]
            && (r.transports[t].cycled <==> s.transports[t].cycled)
  {}

  /** Which a power cycle during the bounce brings about: the node is live on a cycled transport, and
      no rebuild is under way. */
  lemma TopicWakesCycled()
    ensures var up := Run(Init(true), [Start, Continue(0)]);
            var bounced := Run(up, [SetTopic(true), RadioDown(1), RadioUp(1)]);
            var s := Run(bounced, [Continue(1)]);
            && Live(s) && s.current == Some(1) && 1 in s.transports && Awake(s.transports[1]) && s.transports[1].cycled
            && s.tasks == map[]
  {
    RunTwo(Init(true), Start, Continue(0));
    var up := State(true, true, false, false, false, Some(1), map[1 := FRESH], 1, [], {}, map[], 1, true);
    assert map[0 := Task(Activating, None, false)] - {0} == map[];
    assert Run(Init(true), [Start, Continue(0)]) == up;
    RunThree(up, SetTopic(true), RadioDown(1), RadioUp(1));
    var waiting := map[1 := Task(Retopic, None, false)];
    var bounced := up.(transports := map[1 := Transport(true, false, true, true, false)], tasks := waiting, next := 2);
    assert Run(up, [SetTopic(true), RadioDown(1), RadioUp(1)]) == bounced;
    RunOne(bounced, Continue(1));
    assert waiting - {1} == map[];
  }

  // ─── the other calls ────────────────────────────────────────────────────

  /** Stop, suspend and close put the current transport to sleep and touch no other. */
  lemma CallsPause(s: State, e: Event)
    requires Inv(s) && (e.Stop? || e.Suspend? || e.CloseRuns?) && Enabled(s, e)
    requires s.started && !s.suspended && s.current.Some?
    ensures var r, t := Step(s, e), s.current.value;
            && r.current == s.current && !Awake(r.transports[t]) && r.transports == s.transports[t := r.transports[t]]
            && r.started == e.Suspend? && r.suspended == e.Suspend?
  {}

  /** Main: a call builds after its await exactly if it was not a topic change, no transport is current,
      and the owner is started, not suspended and not closing; nothing else builds. */
  lemma BuildsExactlyIf(s: State, e: Event)
    ensures Step(s, e).gen != s.gen <==>
      && e.Continue? && e.task in s.tasks && (s.tasks[e.task].prior.Some? ==> s.tasks[e.task].retired)
      && !s.tasks[e.task].kind.Retopic? && s.current.None?
      && s.started && !s.suspended && !s.closing && !s.closed
  {
    if Enabled(s, e) && !e.Continue? {
      OthersBuildNothing(s, e);
    }
  }

  /** The end of a topic change wakes the current transport if the owner is still live, and nothing
      else; a finished call is forgotten either way. */
  lemma TopicDone(s: State, j: nat)
    requires Inv(s) && j in s.tasks && s.tasks[j] == Task(Retopic, None, false)
    ensures var r := Step(s, Continue(j));
            && r == s.(tasks := s.tasks - {j}, transports := r.transports)
            && r.transports == if s.started && !s.suspended && s.current.Some?
                               then s.transports[s.current.value := s.transports[s.current.value].(paused := false)] else s.transports
  {}

  /** Calls that find nothing to put to sleep or wake only set their flag, and repeated ones do
      nothing. */
  lemma FlagsOnly(s: State)
    ensures s.current.None? || s.suspended || !s.started ==> Step(s, Stop) == s.(started := false)
    ensures s.current.None? || s.suspended || !s.started ==> Step(s, Suspend) == s.(suspended := true)
    ensures !s.suspended ==> Step(s, Resume) == s
    ensures s.suspended && !s.started ==> Step(s, Resume) == s.(suspended := false)
    ensures s.started || !s.supported || s.closing || s.closed ==> Step(s, Start) == s
    ensures !s.started && s.supported && !s.closing && !s.closed && s.suspended ==> Step(s, Start) == s.(started := true)
    ensures Step(s, CloseBegins) == s.(closing := true)
    ensures s.closing ==> Step(s, CloseEnds) == s.(closed := true)
  {}

  /** The retirement of an abandoned transport's managers, and the power cycle of a radio. */
  lemma RadioEvents(s: State, task: nat, t: nat)
    ensures Enabled(s, Retire(task)) ==>
      Step(s, Retire(task)) == s.(tasks := s.tasks[task := Task(s.tasks[task].kind, s.tasks[task].prior, true)],
                                  gone := s.gone + {s.tasks[task].prior.value})
    ensures t in s.transports ==>
      Step(s, RadioDown(t)) == s.(transports := s.transports[t := s.transports[t].(cycled := true, down := true)])
  {}
}
