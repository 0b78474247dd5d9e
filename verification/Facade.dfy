/** The two-axis lifecycle of index.js: start/stop and suspend/resume, with a step per await, so
    calls, rebuilds and radio events interleave freely between check and act. */
module Facade {
  import opened Options

  /** A transport as its owner sees it. `down` and `healing`: _radioWasDown and _healing. */
  datatype Transport = Transport(paused: bool, shut: bool, cycled: bool, down: bool, healing: bool)

  const FRESH := Transport(false, false, false, false, false)

  datatype Kind = Activating | Rebuilding | Retopic

  /** A call stopped at an await. `prior`: the transport it abandoned, whose suspend it awaits;
      `retired`: that one's managers were destroyed. */
  datatype Task = Task(kind: Kind, prior: Option<nat>, retired: bool)

  /** `gen`: transports created so far. `taken`: history of those taken by _abandon, in order.
      `gone`: those whose managers were retired. `clean`: no transport was ever built while an
      abandoned one still had its managers. */
  datatype State = State(
    supported: bool,
    started: bool,
    suspended: bool,
    closing: bool,
    closed: bool,
    current: Option<nat>,
    transports: map<nat, Transport>,
    gen: nat,
    taken: seq<nat>,
    gone: set<nat>,
    tasks: map<nat, Task>,
    next: nat,
    clean: bool)

  datatype Event =
    | Start
    | Stop
    | Suspend
    | Resume
    | SetTopic(changed: bool)
    | CloseBegins
    | CloseRuns
    | CloseEnds
    | RadioDown(transport: nat)
    | RadioUp(transport: nat)
    | Retire(task: nat)
    | Continue(task: nat)

  function Init(supported: bool): State {
    State(supported, false, false, false, false, None, map[], 0, [], {}, map[], 0, true)
  }

  // ─── one transport ──────────────────────────────────────────────────────

  predicate Awake(t: Transport) {
    !t.paused && !t.shut
  }

  function SetPaused(s: State, paused: bool): (r: State)
    ensures r.gen == s.gen && s.taken <= r.taken
  {
    if s.current.None? || s.current.value !in s.transports then s
    else s.(transports := s.transports[s.current.value := s.transports[s.current.value].(paused := paused)])
  }

  predicate NeedsRebuild(s: State) {
    s.current.None? || (s.current.value in s.transports && s.transports[s.current.value].cycled)
  }

  // ─── the pieces ─────────────────────────────────────────────────────────

  function Await(s: State, task: Task): (r: State)
    ensures r.gen == s.gen && s.taken <= r.taken
  {
    s.(tasks := s.tasks[s.next := task], next := s.next + 1)
  }

  /** _abandon up to its await: the owner lets go before the old transport has suspended. */
  function Abandon(s: State, kind: Kind): (r: State)
    ensures r.gen == s.gen && s.taken <= r.taken
  {
    match s.current
    case None => Await(s, Task(kind, None, false))
    case Some(prior) => Await(SetPaused(s, true).(current := None, taken := s.taken + [prior]), Task(kind, Some(prior), false))
  }

  function Activate(s: State): (r: State)
    ensures r.gen == s.gen && s.taken <= r.taken
  {
    if NeedsRebuild(s) then Abandon(s, Activating) else SetPaused(s, false)
  }

  predicate AllGone(s: State) {
    forall t | t in s.taken :: t in s.gone
  }

  function Create(s: State): State {
    s.(current := Some(s.gen + 1), gen := s.gen + 1, transports := s.transports[s.gen + 1 := FRESH],
       clean := s.clean && AllGone(s))
  }

  predicate Wanted(s: State) {
    s.started && !s.suspended && !s.closing && !s.closed
  }

  /** What each call does after its await. */
  function Resumed(s: State, kind: Kind): State {
    match kind
    case Activating => if s.current.Some? || !Wanted(s) then s else Create(s)
    case Rebuilding =>
      if s.current.Some? || s.closing || s.closed then s
      else if s.started && !s.suspended then Create(s) else s
    case Retopic => if s.started && !s.suspended then SetPaused(s, false) else s
  }

  function Rebuild(s: State, prior: nat): (r: State)
    ensures r.gen == s.gen && s.taken <= r.taken
  {
    if s.current != Some(prior) || s.closing || s.closed then s else Abandon(s, Rebuilding)
  }

  /** A transport that comes back from a power cycle asks once for a rebuild, unless it is paused. */
  function PoweredOn(s: State, t: nat): (r: State)
    requires t in s.transports
    ensures r.gen == s.gen && s.taken <= r.taken
  {
    var x := s.transports[t];
    if !x.down || x.healing || !Awake(x) then s
    else Rebuild(s.(transports := s.transports[t := x.(down := false, healing := true)]), t)
  }

  function Shut(s: State): State {
    if s.current.None? || s.current.value !in s.transports then s
    else s.(transports := s.transports[s.current.value := s.transports[s.current.value].(shut := true)])
  }

  predicate Enabled(s: State, e: Event) {
    match e
    case CloseRuns => s.closing && !s.closed
    case CloseEnds => s.closing
    case RadioDown(t) => t in s.transports
    case RadioUp(t) => t in s.transports
    case Retire(task) => task in s.tasks && s.tasks[task].prior.Some? && !s.tasks[task].retired
    case Continue(task) => task in s.tasks && (s.tasks[task].prior.Some? ==> s.tasks[task].retired)
    case _ => true
  }

  function OnStart(s: State): State {
    if !s.supported || s.started || s.closing || s.closed then s
    else
      var r := s.(started := true);
      if s.suspended then r else Activate(r)
  }

  function OnStop(s: State): State {
    if !s.started then s
    else
      var r := s.(started := false);
      if s.suspended then r else SetPaused(r, true)
  }

  function OnSuspend(s: State): State {
    if s.suspended then s
    else
      var r := s.(suspended := true);
      if s.started then SetPaused(r, true) else r
  }

  function OnResume(s: State): State {
    if !s.suspended then s
    else
      var r := s.(suspended := false);
      if s.started then Activate(r) else r
  }

  function OnSetTopic(s: State, changed: bool): State {
    if changed && s.current.Some? && s.started && !s.suspended
    then Await(SetPaused(s, true), Task(Retopic, None, false))
    else s
  }

  function OnRetire(s: State, task: nat): State
    requires task in s.tasks && s.tasks[task].prior.Some?
  {
    s.(tasks := s.tasks[task := s.tasks[task].(retired := true)], gone := s.gone + {s.tasks[task].prior.value})
  }

  function Apply(s: State, e: Event): State
    requires Enabled(s, e)
  {
    match e
    case Start => OnStart(s)
    case Stop => OnStop(s)
    case Suspend => OnSuspend(s)
    case Resume => OnResume(s)
    case SetTopic(changed) => OnSetTopic(s, changed)
    case CloseBegins => s.(closing := true)
    case CloseRuns => Shut(s.(started := false))
    case CloseEnds => s.(closed := true)
    case RadioDown(t) => s.(transports := s.transports[t := s.transports[t].(cycled := true, down := true)])
    case RadioUp(t) => PoweredOn(s, t)
    case Retire(task) => OnRetire(s, task)
    case Continue(task) => Resumed(s.(tasks := s.tasks - {task}), s.tasks[task].kind)
  }

  function Step(s: State, e: Event): State {
    if Enabled(s, e) then Apply(s, e) else s
  }

  function Run(s: State, events: seq<Event>): State {
    if events == [] then s else Step(Run(s, events[..|events| - 1]), events[|events| - 1])
  }

  // ─── any interleaving ───────────────────────────────────────────────────

  ghost predicate Once(taken: seq<nat>) {
    forall i, j | 0 <= i < j < |taken| :: taken[i] != taken[j]
  }

  /** Transport `g` is the current one or was taken, never both. */
  predicate Accounted(s: State, g: nat) {
    (s.current == Some(g)) != (g in s.taken)
  }

  /** Only the current transport can be awake. */
  predicate PausedUnlessCurrent(s: State, g: nat)
    requires g in s.transports
  {
    s.current != Some(g) ==> s.transports[g].paused
  }

  ghost predicate Inv(s: State) {
    && Once(s.taken)
    && (forall g: nat | 1 <= g <= s.gen :: g in s.transports && Accounted(s, g))
    && (forall g | g in s.transports :: 1 <= g <= s.gen && PausedUnlessCurrent(s, g))
    && (forall g | g in s.taken :: g in s.transports)
    && (s.current.Some? ==> s.current.value in s.transports)
  }

  lemma TransportInv(s: State, r: State, t: nat, x: Transport)
    requires Inv(s) && t in s.transports && r.transports == s.transports[t := x]
    requires r.current == s.current && r.taken == s.taken && r.gen == s.gen
    requires s.current == Some(t) || x.paused
    ensures Inv(r)
  {
    forall g: nat | 1 <= g <= r.gen
      ensures g in r.transports && Accounted(r, g)
    {
      assert Accounted(s, g);
    }
    forall g | g in r.transports
      ensures 1 <= g <= r.gen && PausedUnlessCurrent(r, g)
    {
      assert g in s.transports && PausedUnlessCurrent(s, g);
    }
  }

  lemma PausedInv(s: State, paused: bool)
    requires Inv(s)
    ensures Inv(SetPaused(s, paused))
  {
    if s.current.Some? {
      var t := s.current.value;
      TransportInv(s, SetPaused(s, paused), t, s.transports[t].(paused := paused));
    }
  }

  lemma TakeInv(s: State, r: State)
    requires Inv(s) && s.current.Some? && s.transports[s.current.value].paused
    requires r.current.None? && r.taken == s.taken + [s.current.value] && r.gen == s.gen && r.transports == s.transports
    ensures Inv(r)
  {
    assert s.current.value in s.transports && Accounted(s, s.current.value);
    forall g: nat | 1 <= g <= r.gen
      ensures g in r.transports && Accounted(r, g)
    {
      assert Accounted(s, g);
    }
    forall g | g in r.transports
      ensures 1 <= g <= r.gen && PausedUnlessCurrent(r, g)
    {
      assert g in s.transports && PausedUnlessCurrent(s, g);
    }
  }

  lemma AbandonInv(s: State, kind: Kind)
    requires Inv(s)
    ensures Inv(Abandon(s, kind))
  {
    if s.current.Some? {
      PausedInv(s, true);
      TakeInv(SetPaused(s, true), Abandon(s, kind));
    } else {
      SameInv(s, Abandon(s, kind));
    }
  }

  lemma SameInv(s: State, r: State)
    requires Inv(s)
    requires r.transports == s.transports && r.current == s.current && r.taken == s.taken && r.gen == s.gen
    ensures Inv(r)
  {
    forall g: nat | 1 <= g <= r.gen
      ensures g in r.transports && Accounted(r, g)
    {
      assert Accounted(s, g);
    }
    forall g | g in r.transports
      ensures 1 <= g <= r.gen && PausedUnlessCurrent(r, g)
    {
      assert g in s.transports && PausedUnlessCurrent(s, g);
    }
  }

  lemma ActivateInv(s: State)
    requires Inv(s)
    ensures Inv(Activate(s))
  {
    AbandonInv(s, Activating);
    PausedInv(s, false);
  }

  /** A new generation was never taken. */
  lemma CreateInv(s: State)
    requires Inv(s) && s.current.None?
    ensures Inv(Create(s))
  {
    var r := Create(s);
    forall g: nat | 1 <= g <= r.gen
      ensures g in r.transports && Accounted(r, g)
    {
      if g <= s.gen {
        assert Accounted(s, g);
      }
    }
    forall g | g in r.transports
      ensures 1 <= g <= r.gen && PausedUnlessCurrent(r, g)
    {
      if g != r.gen {
        assert g in s.transports && PausedUnlessCurrent(s, g);
      }
    }
  }

  lemma ResumedInv(s: State, kind: Kind)
    requires Inv(s)
    ensures Inv(Resumed(s, kind))
  {
    PausedInv(s, false);
    if s.current.None? {
      CreateInv(s);
    }
  }

  lemma PoweredOnInv(s: State, t: nat)
    requires Inv(s) && t in s.transports
    ensures Inv(PoweredOn(s, t))
  {
    var x := s.transports[t];
    assert PausedUnlessCurrent(s, t);
    if x.down && !x.healing && Awake(x) {
      var r := s.(transports := s.transports[t := x.(down := false, healing := true)]);
      TransportInv(s, r, t, r.transports[t]);
      AbandonInv(r, Rebuilding);
    }
  }

  lemma CallInv(s: State, e: Event)
    requires Inv(s) && (e.Start? || e.Stop? || e.Suspend? || e.Resume? || e.SetTopic?)
    ensures Inv(Apply(s, e))
  {
    match e
    case Start =>
      SameInv(s, s.(started := true));
      ActivateInv(s.(started := true));
    case Stop =>
      SameInv(s, s.(started := false));
      PausedInv(s.(started := false), true);
    case Suspend =>
      SameInv(s, s.(suspended := true));
      PausedInv(s.(suspended := true), true);
    case Resume =>
      SameInv(s, s.(suspended := false));
      ActivateInv(s.(suspended := false));
    case SetTopic(changed) =>
      PausedInv(s, true);
      SameInv(SetPaused(s, true), Await(SetPaused(s, true), Task(Retopic, None, false)));
  }

  lemma StepInv(s: State, e: Event)
    requires Inv(s)
    ensures Inv(Step(s, e))
  {
    if Enabled(s, e) {
      match e
      case RadioDown(t) =>
        assert PausedUnlessCurrent(s, t);
        TransportInv(s, Apply(s, e), t, s.transports[t].(cycled := true, down := true));
      case RadioUp(t) => PoweredOnInv(s, t);
      case Retire(task) => SameInv(s, OnRetire(s, task));
      case Continue(task) =>
        SameInv(s, s.(tasks := s.tasks - {task}));
        ResumedInv(s.(tasks := s.tasks - {task}), s.tasks[task].kind);
      case CloseRuns => ShutInv(s);
      case CloseBegins => SameInv(s, Apply(s, e));
      case CloseEnds => SameInv(s, Apply(s, e));
      case _ => CallInv(s, e);
    }
  }

  lemma ShutInv(s: State)
    requires Inv(s)
    ensures Inv(Shut(s.(started := false)))
  {
    SameInv(s, s.(started := false));
    if s.current.Some? {
      var t := s.current.value;
      TransportInv(s, Shut(s.(started := false)), t, s.transports[t].(shut := true));
    }
  }

  lemma {:induction false} RunInv(supported: bool, events: seq<Event>)
    ensures Inv(Run(Init(supported), events))
  {
    if events != [] {
      RunInv(supported, events[..|events| - 1]);
      StepInv(Run(Init(supported), events[..|events| - 1]), events[|events| - 1]);
    }
  }

  /** Main: in every interleaving, each transport ever created is either the current one or was
      taken by _abandon, exactly once, and whatever is not current stays paused: at most one
      transport is ever awake. */
  lemma NoLeak(supported: bool, events: seq<Event>, g: nat)
    requires 1 <= g <= Run(Init(supported), events).gen
    ensures var s := Run(Init(supported), events);
            && (s.current == Some(g)) != (g in s.taken)
            && multiset(s.taken)[g] <= 1
            && g in s.transports && (Awake(s.transports[g]) ==> s.current == Some(g))
  {
    RunInv(supported, events);
    var s := Run(Init(supported), events);
    assert Accounted(s, g) && PausedUnlessCurrent(s, g);
    OnceCounts(s.taken, g);
  }

  lemma {:induction false} OnceCounts(taken: seq<nat>, g: nat)
    requires Once(taken)
    ensures multiset(taken)[g] <= 1
  {
    if taken != [] {
      OnceCounts(taken[1..], g);
      assert taken == [taken[0]] + taken[1..];
      assert taken[0] == g ==> g !in taken[1..];
    }
  }

  /** In every interleaving, a step that installs a transport does so while started, not suspended
      and not closing; it installs exactly the next one, and by then every older one had been
      abandoned and sleeps for good. */
  lemma InstallsOnlyWhenWanted(supported: bool, events: seq<Event>, e: Event)
    requires Step(Run(Init(supported), events), e).gen != Run(Init(supported), events).gen
    ensures var s, r := Run(Init(supported), events), Step(Run(Init(supported), events), e);
            && e.Continue? && Wanted(s) && s.current.None?
            && r.gen == s.gen + 1 && r.current == Some(r.gen) && Awake(r.transports[r.gen])
            && (forall g: nat | 1 <= g <= s.gen :: Retired(r, g))
  {
    RunInv(supported, events);
    StepInstalls(Run(Init(supported), events), e);
  }

  lemma StepInstalls(s: State, e: Event)
    requires Inv(s) && Step(s, e).gen != s.gen
    ensures var r := Step(s, e);
            && e.Continue? && Wanted(s) && s.current.None?
            && r.gen == s.gen + 1 && r.current == Some(r.gen) && Awake(r.transports[r.gen])
            && (forall g: nat | 1 <= g <= s.gen :: Retired(r, g))
  {
    if Enabled(s, e) && !e.Continue? {
      OthersBuildNothing(s, e);
    }
    var q := s.(tasks := s.tasks - {e.task});
    SameInv(s, q);
    CreateRetires(q);
  }

  lemma CreateRetires(s: State)
    requires Inv(s) && s.current.None?
    ensures forall g: nat | 1 <= g <= s.gen :: Retired(Create(s), g)
  {
    forall g: nat | 1 <= g <= s.gen
      ensures Retired(Create(s), g)
    {
      assert Accounted(s, g) && PausedUnlessCurrent(s, g);
    }
  }

  /** Taken, and paused. */
  predicate Retired(s: State, g: nat) {
    g in s.taken && g in s.transports && s.transports[g].paused && s.current != Some(g)
  }

  lemma StepRetired(s: State, e: Event, g: nat)
    requires Inv(s) && Retired(s, g)
    ensures Inv(Step(s, e)) && Retired(Step(s, e), g)
  {
    var r := Step(s, e);
    StepInv(s, e);
    TakenGrows(s, e);
    assert g in r.taken && g in r.transports;
    assert Accounted(r, g) && PausedUnlessCurrent(r, g);
  }

  lemma TakenGrows(s: State, e: Event)
    ensures s.taken <= Step(s, e).taken
  {}

  /** What was taken stays taken and paused, whatever happens. */
  lemma {:induction false} RetiredForGood(s: State, events: seq<Event>, g: nat)
    requires Inv(s) && Retired(s, g)
    ensures Inv(Run(s, events)) && Retired(Run(s, events), g)
  {
    if events != [] {
      RetiredForGood(s, events[..|events| - 1], g);
      StepRetired(Run(s, events[..|events| - 1]), events[|events| - 1], g);
    }
  }

  lemma OthersBuildNothing(s: State, e: Event)
    requires Enabled(s, e) && !e.Continue?
    ensures Apply(s, e).gen == s.gen
  {}

  // ─── whose managers are retired ─────────────────────────────────────────

  predicate TaskOk(s: State, j: nat)
    requires j in s.tasks
  {
    j < s.next && (s.tasks[j].prior.Some? ==> s.tasks[j].prior.value in s.taken && (s.tasks[j].retired <==> s.tasks[j].prior.value in s.gone))
  }

  predicate OneOwner(s: State, i: nat, j: nat)
    requires i in s.tasks && j in s.tasks
  {
    i != j && s.tasks[i].prior.Some? ==> s.tasks[i].prior != s.tasks[j].prior
  }

  predicate Owes(s: State, j: nat, g: nat) {
    j in s.tasks && s.tasks[j].prior == Some(g)
  }

  /** A taken transport whose managers live on is one call's business. */
  ghost predicate Owed(s: State) {
    && (forall j | j in s.tasks :: TaskOk(s, j))
    && (forall i, j | i in s.tasks && j in s.tasks :: OneOwner(s, i, j))
    && (forall g | g in s.taken && g !in s.gone :: exists j :: Owes(s, j, g))
  }

  lemma SameOwed(s: State, r: State)
    requires Owed(s) && r.tasks == s.tasks && r.next == s.next && r.taken == s.taken && r.gone == s.gone
    ensures Owed(r)
  {
    forall j | j in r.tasks
      ensures TaskOk(r, j)
    {
      assert TaskOk(s, j);
    }
    forall i, j | i in r.tasks && j in r.tasks
      ensures OneOwner(r, i, j)
    {
      assert OneOwner(s, i, j);
    }
    forall g | g in r.taken && g !in r.gone
      ensures exists j :: Owes(r, j, g)
    {
      var j :| Owes(s, j, g);
      assert Owes(r, j, g);
    }
  }

  /** A new call waiting, for a transport it took or for none. */
  lemma AwaitOwed(s: State, kind: Kind, prior: Option<nat>)
    requires Owed(s) && (prior.Some? ==> prior.value !in s.taken && prior.value !in s.gone)
    ensures Owed(Await(s.(taken := s.taken + if prior.Some? then [prior.value] else []), Task(kind, prior, false)))
  {
    var r := Await(s.(taken := s.taken + if prior.Some? then [prior.value] else []), Task(kind, prior, false));
    forall j | j in r.tasks
      ensures TaskOk(r, j)
    {
      assert j in s.tasks ==> TaskOk(s, j);
    }
    forall i, j | i in r.tasks && j in r.tasks
      ensures OneOwner(r, i, j)
    {
      assert i in s.tasks ==> TaskOk(s, i);
      assert j in s.tasks ==> TaskOk(s, j);
      assert i in s.tasks && j in s.tasks ==> OneOwner(s, i, j);
    }
    forall g | g in r.taken && g !in r.gone
      ensures exists j :: Owes(r, j, g)
    {
      if prior == Some(g) {
        assert Owes(r, s.next, g);
      } else {
        var j :| Owes(s, j, g);
        assert TaskOk(s, j) && Owes(r, j, g);
      }
    }
  }

  lemma RetireOwed(s: State, task: nat)
    requires Owed(s) && Enabled(s, Retire(task))
    ensures Owed(OnRetire(s, task))
  {
    var r := OnRetire(s, task);
    forall j | j in r.tasks
      ensures TaskOk(r, j)
    {
      assert TaskOk(s, j) && OneOwner(s, task, j);
    }
    forall i, j | i in r.tasks && j in r.tasks
      ensures OneOwner(r, i, j)
    {
      assert OneOwner(s, i, j);
    }
    forall g | g in r.taken && g !in r.gone
      ensures exists j :: Owes(r, j, g)
    {
      var j :| Owes(s, j, g);
      assert Owes(r, j, g);
    }
  }

  lemma DoneOwed(s: State, task: nat)
    requires Owed(s) && Enabled(s, Continue(task))
    ensures Owed(s.(tasks := s.tasks - {task}))
  {
    var r := s.(tasks := s.tasks - {task});
    assert TaskOk(s, task);
    forall j | j in r.tasks
      ensures TaskOk(r, j)
    {
      assert TaskOk(s, j);
    }
    forall i, j | i in r.tasks && j in r.tasks
      ensures OneOwner(r, i, j)
    {
      assert OneOwner(s, i, j);
    }
    forall g | g in r.taken && g !in r.gone
      ensures exists j :: Owes(r, j, g)
    {
      var j :| Owes(s, j, g);
      assert Owes(r, j, g);
    }
  }

  /** Only what was taken is ever gone. */
  ghost predicate GoneTaken(s: State) {
    forall g | g in s.gone :: g in s.taken
  }

  lemma AbandonOwed(s: State, kind: Kind)
    requires Inv(s) && Owed(s) && GoneTaken(s)
    ensures Owed(Abandon(s, kind)) && GoneTaken(Abandon(s, kind))
  {
    if s.current.Some? {
      var t := s.current.value;
      assert s.transports[t] == s.transports[t] && Accounted(s, t);
      var p := SetPaused(s, true).(current := None);
      SameOwed(s, p);
      AwaitOwed(p, kind, Some(t));
    } else {
      AwaitOwed(s, kind, None);
      assert s.taken + [] == s.taken;
    }
  }

  lemma ActivateOwed(s: State)
    requires Inv(s) && Owed(s) && GoneTaken(s)
    ensures Owed(Activate(s)) && GoneTaken(Activate(s))
  {
    AbandonOwed(s, Activating);
    SameOwed(s, SetPaused(s, false));
  }

  lemma PoweredOnOwed(s: State, t: nat)
    requires Inv(s) && Owed(s) && GoneTaken(s) && t in s.transports
    ensures Owed(PoweredOn(s, t)) && GoneTaken(PoweredOn(s, t))
  {
    var x := s.transports[t];
    if x.down && !x.healing && Awake(x) {
      var r := s.(transports := s.transports[t := x.(down := false, healing := true)]);
      assert PausedUnlessCurrent(s, t);
      TransportInv(s, r, t, r.transports[t]);
      SameOwed(s, r);
      AbandonOwed(r, Rebuilding);
    }
  }

  lemma StartOwed(s: State)
    requires Inv(s) && Owed(s) && GoneTaken(s)
    ensures Owed(OnStart(s)) && GoneTaken(OnStart(s))
  {
    var r := s.(started := true);
    SameInv(s, r);
    SameOwed(s, r);
    ActivateOwed(r);
  }

  lemma ResumeOwed(s: State)
    requires Inv(s) && Owed(s) && GoneTaken(s)
    ensures Owed(OnResume(s)) && GoneTaken(OnResume(s))
  {
    var r := s.(suspended := false);
    SameInv(s, r);
    SameOwed(s, r);
    ActivateOwed(r);
  }

  lemma TopicOwed(s: State, changed: bool)
    requires Owed(s) && GoneTaken(s)
    ensures Owed(OnSetTopic(s, changed)) && GoneTaken(OnSetTopic(s, changed))
  {
    SameOwed(s, SetPaused(s, true));
    AwaitOwed(SetPaused(s, true), Retopic, None);
    assert s.taken + [] == s.taken;
  }

  lemma CallOwed(s: State, e: Event)
    requires Inv(s) && Owed(s) && GoneTaken(s) && (e.Start? || e.Stop? || e.Suspend? || e.Resume? || e.SetTopic?)
    ensures Owed(Apply(s, e)) && GoneTaken(Apply(s, e))
  {
    match e
    case Start => StartOwed(s);
    case Resume => ResumeOwed(s);
    case SetTopic(changed) => TopicOwed(s, changed);
    case Stop => SameOwed(s, OnStop(s));
    case Suspend => SameOwed(s, OnSuspend(s));
    case _ =>
  }

  lemma ContinueOwed(s: State, task: nat)
    requires Owed(s) && GoneTaken(s) && Enabled(s, Continue(task))
    ensures Owed(Apply(s, Continue(task))) && GoneTaken(Apply(s, Continue(task)))
  {
    var r := s.(tasks := s.tasks - {task});
    DoneOwed(s, task);
    SameOwed(r, Resumed(r, s.tasks[task].kind));
  }

  lemma StepOwed(s: State, e: Event)
    requires Inv(s) && Owed(s) && GoneTaken(s)
    ensures Owed(Step(s, e)) && GoneTaken(Step(s, e))
  {
    if Enabled(s, e) {
      match e
      case RadioUp(t) => PoweredOnOwed(s, t);
      case Retire(task) =>
        assert TaskOk(s, task);
        RetireOwed(s, task);
      case Continue(task) => ContinueOwed(s, task);
      case Start => CallOwed(s, e);
      case Stop => CallOwed(s, e);
      case Suspend => CallOwed(s, e);
      case Resume => CallOwed(s, e);
      case SetTopic(_) => CallOwed(s, e);
      case _ => FlagsOwed(s, e);
    }
  }

  lemma FlagsOwed(s: State, e: Event)
    requires Owed(s) && GoneTaken(s) && Enabled(s, e) && (e.RadioDown? || e.CloseBegins? || e.CloseRuns? || e.CloseEnds?)
    ensures Owed(Apply(s, e)) && GoneTaken(Apply(s, e))
  {
    SameOwed(s, Apply(s, e));
  }

  lemma {:induction false} RunOwed(supported: bool, events: seq<Event>)
    ensures Owed(Run(Init(supported), events)) && GoneTaken(Run(Init(supported), events))
  {
    if events != [] {
      var front := events[..|events| - 1];
      RunInv(supported, front);
      RunOwed(supported, front);
      StepOwed(Run(Init(supported), front), events[|events| - 1]);
    }
  }

  /** Main: in every interleaving, a transport is built after all older managers were retired
      exactly when no call is still retiring some. */
  lemma BuildsCleanIff(supported: bool, events: seq<Event>, e: Event)
    requires Step(Run(Init(supported), events), e).gen != Run(Init(supported), events).gen
    ensures var s := Run(Init(supported), events);
            AllGone(s) <==> forall j | j in s.tasks :: s.tasks[j].prior.Some? ==> s.tasks[j].retired
  {
    var s := Run(Init(supported), events);
    RunOwed(supported, events);
    forall g | g in s.taken && g !in s.gone
      ensures exists j :: j in s.tasks && s.tasks[j].prior.Some? && !s.tasks[j].retired
    {
      var j :| Owes(s, j, g);
      assert TaskOk(s, j);
    }
    forall j | j in s.tasks && s.tasks[j].prior.Some? && !s.tasks[j].retired
      ensures s.tasks[j].prior.value in s.taken && s.tasks[j].prior.value !in s.gone
    {
      assert TaskOk(s, j);
    }
  }

  lemma RunOne(s: State, a: Event)
    ensures Run(s, [a]) == Step(s, a)
  {
    assert [a][..0] == [];
  }

  lemma RunTwo(s: State, a: Event, b: Event)
    ensures Run(s, [a, b]) == Step(Step(s, a), b)
  {
    assert [a, b][..1] == [a];
    RunOne(s, a);
  }

  lemma RunThree(s: State, a: Event, b: Event, c: Event)
    ensures Run(s, [a, b, c]) == Step(Step(Step(s, a), b), c)
  {
    assert [a, b, c][..2] == [a, b];
    RunTwo(s, a, b);
  }

  /** Suspending and resuming while a rebuild still retires the old transport builds the new one
      too early. */
  lemma OverlapBuildsEarly()
    ensures var up := Run(Init(true), [Start, Continue(0)]);
            var cycled := Run(up, [RadioDown(1), RadioUp(1)]);
            var s := Run(cycled, [Suspend, Resume, Continue(2)]);
            !s.clean && s.current == Some(2) && s.taken == [1] && s.gone == {}
  {
    RunTwo(Init(true), Start, Continue(0));
    var up := State(true, true, false, false, false, Some(1), map[1 := FRESH], 1, [], {}, map[], 1, true);
    assert map[0 := Task(Activating, None, false)] - {0} == map[];
    assert Run(Init(true), [Start, Continue(0)]) == up;
    RunTwo(up, RadioDown(1), RadioUp(1));
    var waiting := map[1 := Task(Rebuilding, Some(1), false)];
    var cycled := State(true, true, false, false, false, None, map[1 := Transport(true, false, true, false, true)], 1, [1], {}, waiting, 2, true);
    assert Run(up, [RadioDown(1), RadioUp(1)]) == cycled;
    RunThree(cycled, Suspend, Resume, Continue(2));
    var resumed := cycled.(tasks := waiting[2 := Task(Activating, None, false)], next := 3);
    assert Step(Step(cycled, Suspend), Resume) == resumed;
    assert 1 in resumed.taken && !AllGone(resumed);
  }

  // ─── one call at a time ─────────────────────────────────────────────────

  datatype Call =
    | Starting
    | Stopping
    | Suspending
    | Resuming
    | Topic(changed: bool)
    | Closing
    | PowerDown(transport: nat)
    | PowerUp(transport: nat)

  /** A call to its end: its first part, then the retirement and the rest if it stopped at an
      await. */
  function Script(s: State, c: Call): seq<Event> {
    match c
    case Starting => [Start, Retire(s.next), Continue(s.next)]
    case Stopping => [Stop]
    case Suspending => [Suspend]
    case Resuming => [Resume, Retire(s.next), Continue(s.next)]
    case Topic(changed) => [SetTopic(changed), Continue(s.next)]
    case Closing => [CloseBegins, CloseRuns, CloseEnds]
    case PowerDown(t) => [RadioDown(t)]
    case PowerUp(t) => [RadioUp(t), Retire(s.next), Continue(s.next)]
  }

  function Whole(s: State, c: Call): State {
    Run(s, Script(s, c))
  }

  function Calls(supported: bool, calls: seq<Call>): State {
    if calls == [] then Init(supported) else Whole(Calls(supported, calls[..|calls| - 1]), calls[|calls| - 1])
  }

  predicate CurrentAwake(s: State) {
    s.current.Some? && s.current.value in s.transports && Awake(s.transports[s.current.value])
  }

  predicate Live(s: State) {
    s.started && !s.suspended
  }

  /** Nothing is in flight, and the radio follows the two axes. */
  ghost predicate Intent(s: State) {
    && s.tasks == map[] && Inv(s) && AllGone(s) && s.clean
    && (CurrentAwake(s) <==> Live(s))
    && (s.started ==> s.supported && !s.closing)
    && (s.closed ==> s.closing)
    && (s.current.Some? && s.transports[s.current.value].shut ==> s.closing)
  }

  /** All of that but the awake transport. */
  ghost predicate Tidy(s: State) {
    && s.tasks == map[] && Inv(s) && AllGone(s) && s.clean
    && (s.current.Some? && s.transports[s.current.value].shut ==> s.closing)
  }

  /** With the old one retired the call builds the new one. */
  lemma BuildsNow(s: State, j: nat, task: Task)
    requires s.tasks == map[j := task] && (task.prior.Some? ==> task.retired) && task.kind != Retopic
    requires Inv(s) && AllGone(s) && s.clean && Wanted(s) && s.supported && s.current.None?
    ensures Intent(Step(s, Continue(j)))
  {
    StepInv(s, Continue(j));
    assert s.tasks - {j} == map[];
  }

  /** Taking the current transport to pieces, if there is one, and building anew. */
  lemma Renewed(s: State, kind: Kind)
    requires Tidy(s) && Wanted(s) && s.supported && kind != Retopic
    ensures Intent(Step(Step(Abandon(s, kind), Retire(s.next)), Continue(s.next)))
  {
    var a := Abandon(s, kind);
    var b := Step(a, Retire(s.next));
    AbandonInv(s, kind);
    StepInv(a, Retire(s.next));
    assert a.tasks == map[s.next := Task(kind, s.current, false)];
    if s.current.Some? {
      assert b.tasks == map[s.next := Task(kind, s.current, true)];
      assert AllGone(b);
      BuildsNow(b, s.next, Task(kind, s.current, true));
    } else {
      BuildsNow(a, s.next, Task(kind, None, false));
    }
  }

  /** Once nothing waits, the rest of a script does nothing. */
  lemma Idle(s: State, j: nat)
    requires s.tasks == map[]
    ensures Step(Step(s, Retire(j)), Continue(j)) == s
  {}

  lemma ActivateIntent(s: State)
    requires Tidy(s) && Wanted(s) && s.supported && !CurrentAwake(s)
    ensures Intent(Step(Step(Activate(s), Retire(s.next)), Continue(s.next)))
  {
    if NeedsRebuild(s) {
      Renewed(s, Activating);
    } else {
      PausedInv(s, false);
      Idle(SetPaused(s, false), s.next);
    }
  }

  lemma StartIntent(s: State)
    requires Intent(s)
    ensures Intent(Whole(s, Starting))
  {
    RunThree(s, Start, Retire(s.next), Continue(s.next));
    var r := s.(started := true);
    SameInv(s, r);
    if s.supported && !s.started && !s.closing && !s.closed && !s.suspended {
      ActivateIntent(r);
    } else {
      Idle(OnStart(s), s.next);
    }
  }

  lemma ResumeIntent(s: State)
    requires Intent(s)
    ensures Intent(Whole(s, Resuming))
  {
    RunThree(s, Resume, Retire(s.next), Continue(s.next));
    var r := s.(suspended := false);
    SameInv(s, r);
    if s.suspended && s.started {
      ActivateIntent(r);
    } else {
      Idle(OnResume(s), s.next);
    }
  }

  lemma PauseIntent(s: State)
    requires Intent(s)
    ensures Intent(Whole(s, Stopping)) && Intent(Whole(s, Suspending))
  {
    RunOne(s, Stop);
    RunOne(s, Suspend);
    CallInv(s, Stop);
    CallInv(s, Suspend);
  }

  lemma TopicIntent(s: State, changed: bool)
    requires Intent(s)
    ensures Intent(Whole(s, Topic(changed)))
  {
    RunTwo(s, SetTopic(changed), Continue(s.next));
    CallInv(s, SetTopic(changed));
    var a := OnSetTopic(s, changed);
    StepInv(a, Continue(s.next));
    if changed && s.current.Some? && Live(s) {
      assert a.tasks == map[s.next := Task(Retopic, None, false)];
      assert a.tasks - {s.next} == map[];
    }
  }

  lemma CloseIntent(s: State)
    requires Intent(s)
    ensures Intent(Whole(s, Closing))
  {
    RunThree(s, CloseBegins, CloseRuns, CloseEnds);
    var a := Step(s, CloseBegins);
    StepInv(s, CloseBegins);
    StepInv(a, CloseRuns);
    StepInv(Step(a, CloseRuns), CloseEnds);
  }

  lemma PowerDownIntent(s: State, t: nat)
    requires Intent(s)
    ensures Intent(Whole(s, PowerDown(t)))
  {
    RunOne(s, RadioDown(t));
    StepInv(s, RadioDown(t));
  }

  /** A rebuild is asked for only by a transport that is current and awake. */
  lemma PowerUpIntent(s: State, t: nat)
    requires Intent(s)
    ensures Intent(Whole(s, PowerUp(t)))
  {
    RunThree(s, RadioUp(t), Retire(s.next), Continue(s.next));
    if t in s.transports && s.transports[t].down && !s.transports[t].healing && Awake(s.transports[t]) {
      assert PausedUnlessCurrent(s, t);
      var r := s.(transports := s.transports[t := s.transports[t].(down := false, healing := true)]);
      TransportInv(s, r, t, r.transports[t]);
      Renewed(r, Rebuilding);
    } else {
      Idle(s, s.next);
    }
  }

  lemma CallIntent(s: State, c: Call)
    requires Intent(s)
    ensures Intent(Whole(s, c))
  {
    match c
    case Starting => StartIntent(s);
    case Stopping => PauseIntent(s);
    case Suspending => PauseIntent(s);
    case Resuming => ResumeIntent(s);
    case Topic(changed) => TopicIntent(s, changed);
    case Closing => CloseIntent(s);
    case PowerDown(t) => PowerDownIntent(s, t);
    case PowerUp(t) => PowerUpIntent(s, t);
  }

  lemma {:induction false} CallsIntent(supported: bool, calls: seq<Call>)
    ensures Intent(Calls(supported, calls))
  {
    if calls != [] {
      CallsIntent(supported, calls[..|calls| - 1]);
      CallIntent(Calls(supported, calls[..|calls| - 1]), calls[|calls| - 1]);
    }
  }

  /** Main: when each call completes before the next begins, with power cycles in between, a
      transport is awake exactly while started and not suspended, and none was ever built before
      all older ones had their managers retired. */
  lemma AwakeIffLive(supported: bool, calls: seq<Call>)
    ensures var s := Calls(supported, calls);
            && ((exists g | g in s.transports :: Awake(s.transports[g])) <==> Live(s))
            && (Live(s) ==> CurrentAwake(s))
            && s.clean && s.tasks == map[]
  {
    CallsIntent(supported, calls);
    var s := Calls(supported, calls);
    if g :| g in s.transports && Awake(s.transports[g]) {
      assert PausedUnlessCurrent(s, g);
    }
  }

  /** Such a run is one of the interleavings. */
  lemma {:induction false} CallsAreRuns(supported: bool, calls: seq<Call>) returns (events: seq<Event>)
    ensures Calls(supported, calls) == Run(Init(supported), events)
  {
    if calls == [] {
      return [];
    }
    var n := |calls| - 1;
    var front := CallsAreRuns(supported, calls[..n]);
    var rest := Script(Calls(supported, calls[..n]), calls[n]);
    RunConcat(Init(supported), front, rest);
    return front + rest;
  }

  lemma {:induction false} RunConcat(s: State, a: seq<Event>, b: seq<Event>)
    ensures Run(s, a + b) == Run(Run(s, a), b)
  {
    if b == [] {
      assert a + b == a;
    } else {
      var n := |b| - 1;
      RunConcat(s, a, b[..n]);
      assert (a + b)[..|a| + n] == a + b[..n];
    }
  }

  // ─── the object ─────────────────────────────────────────────────────────

  /** The facade as the source keeps it. A method runs to its first await; `After` is what the
      call does once that await is over. */
  class Swarm {
    const supported: bool
    var started: bool
    var suspended: bool
    var closing: bool
    var closed: bool
    var current: Option<nat>
    var transports: map<nat, Transport>
    var gen: nat
    var tasks: map<nat, Task>
    var next: nat
    ghost var taken: seq<nat>
    ghost var gone: set<nat>
    ghost var clean: bool

    ghost function Value(): State
      reads this
    {
      State(supported, started, suspended, closing, closed, current, transports, gen, taken, gone, tasks, next, clean)
    }

    ghost predicate Valid()
      reads this
    {
      current.Some? ==> current.value in transports
    }

    constructor (supported: bool)
      ensures Valid() && Value() == Init(supported) && this.supported == supported && Reachable()
    {
      this.supported := supported;
      started, suspended, closing, closed := false, false, false, false;
      current, transports, gen, tasks, next := None, map[], 0, map[], 0;
      taken, gone, clean := [], {}, true;
      new;
      assert Value() == Run(Init(supported), []);
    }

    /** The object is in a state some interleaving reaches. */
    ghost predicate Reachable()
      reads this
    {
      Valid() && exists events :: Value() == Run(Init(supported), events)
    }

    /** Every event that can happen goes to its handler, and the object stays on an interleaving. */
    method Handle(e: Event)
      requires Reachable() && Enabled(Value(), e)
      modifies this
      ensures Value() == Step(old(Value()), e) && Reachable()
    {
      ghost var events :| Value() == Run(Init(supported), events);
      assert (events + [e])[..|events|] == events;
      Dispatch(e);
      assert Value() == Run(Init(supported), events + [e]);
    }

    /** At most one transport is awake, and it is the current one. */
    lemma OnlyCurrentAwake(g: nat)
      requires Reachable() && g in transports && Awake(transports[g])
      ensures current == Some(g) && g !in taken
    {
      var events :| Value() == Run(Init(supported), events);
      RunInv(supported, events);
      assert PausedUnlessCurrent(Value(), g) && Accounted(Value(), g);
    }

    method Dispatch(e: Event)
      requires Valid() && Enabled(Value(), e)
      modifies this
      ensures Valid() && Value() == Apply(old(Value()), e)
    {
      match e
      case Start => StartCall();
      case Stop => StopCall();
      case Suspend => SuspendCall();
      case Resume => ResumeCall();
      case SetTopic(changed) => TopicCall(changed);
      case CloseBegins => closing := true;
      case CloseRuns => CloseTransport();
      case CloseEnds => closed := true;
      case RadioDown(t) => transports := transports[t := transports[t].(cycled := true, down := true)];
      case RadioUp(t) => PowerUp(t);
      case Retire(task) => RetireFor(task);
      case Continue(task) =>
        var kind := tasks[task].kind;
        tasks := tasks - {task};
        After(kind);
    }

    method TopicCall(changed: bool)
      requires Valid()
      modifies this`transports, this`tasks, this`next
      ensures Valid() && Value() == OnSetTopic(old(Value()), changed)
    {
      if changed && current.Some? && started && !suspended {
        Pause(true);
        WaitFor(Task(Retopic, None, false));
      }
    }

    /** _close, up to the transport's own close. */
    method CloseTransport()
      requires Valid()
      modifies this`started, this`transports
      ensures Valid() && Value() == Shut(old(Value()).(started := false))
    {
      started := false;
      if current.Some? {
        transports := transports[current.value := transports[current.value].(shut := true)];
      }
    }

    /** A transport's radio is back: it asks for a rebuild, once, unless it is paused. */
    method PowerUp(t: nat)
      requires Valid() && t in transports
      modifies this`current, this`transports, this`tasks, this`next, this`taken
      ensures Valid() && Value() == PoweredOn(old(Value()), t)
    {
      var x := transports[t];
      if x.down && !x.healing && Awake(x) {
        transports := transports[t := x.(down := false, healing := true)];
        RebuildFor(t);
      }
    }

    method RetireFor(task: nat)
      requires task in tasks && tasks[task].prior.Some?
      modifies this`tasks, this`gone
      ensures Value() == OnRetire(old(Value()), task)
    {
      gone := gone + {tasks[task].prior.value};
      tasks := tasks[task := tasks[task].(retired := true)];
    }

    method Pause(paused: bool)
      requires Valid()
      modifies this`transports
      ensures Valid() && Value() == SetPaused(old(Value()), paused)
    {
      if current.Some? {
        transports := transports[current.value := transports[current.value].(paused := paused)];
      }
    }

    method WaitFor(task: Task)
      modifies this`tasks, this`next
      ensures Value() == Await(old(Value()), task)
    {
      tasks := tasks[next := task];
      next := next + 1;
    }

    method AbandonCurrent(kind: Kind)
      requires Valid()
      modifies this`current, this`transports, this`tasks, this`next, this`taken
      ensures Valid() && Value() == Abandon(old(Value()), kind)
    {
      var prior := current;
      if prior.Some? {
        Pause(true);
        current := None;
        taken := taken + [prior.value];
      }
      WaitFor(Task(kind, prior, false));
    }

    method ActivateCurrent()
      requires Valid()
      modifies this`current, this`transports, this`tasks, this`next, this`taken
      ensures Valid() && Value() == Activate(old(Value()))
    {
      if current.Some? && !transports[current.value].cycled {
        Pause(false);
      } else {
        AbandonCurrent(Activating);
      }
    }

    method CreateTransport()
      modifies this`current, this`transports, this`gen, this`clean
      ensures Valid() && Value() == Create(old(Value()))
    {
      clean := clean && AllGone(Value());
      gen := gen + 1;
      current, transports := Some(gen), transports[gen := FRESH];
    }

    method StartCall()
      requires Valid()
      modifies this`started, this`current, this`transports, this`tasks, this`next, this`taken
      ensures Valid() && Value() == OnStart(old(Value()))
    {
      if !supported || started || closing || closed {
        return;
      }
      started := true;
      if !suspended {
        ActivateCurrent();
      }
    }

    method StopCall()
      requires Valid()
      modifies this`started, this`transports
      ensures Valid() && Value() == OnStop(old(Value()))
    {
      if !started {
        return;
      }
      started := false;
      if !suspended {
        Pause(true);
      }
    }

    method SuspendCall()
      requires Valid()
      modifies this`suspended, this`transports
      ensures Valid() && Value() == OnSuspend(old(Value()))
    {
      if suspended {
        return;
      }
      suspended := true;
      if started {
        Pause(true);
      }
    }

    method ResumeCall()
      requires Valid()
      modifies this`suspended, this`current, this`transports, this`tasks, this`next, this`taken
      ensures Valid() && Value() == OnResume(old(Value()))
    {
      if !suspended {
        return;
      }
      suspended := false;
      if started {
        ActivateCurrent();
      }
    }

    method RebuildFor(prior: nat)
      requires Valid()
      modifies this`current, this`transports, this`tasks, this`next, this`taken
      ensures Valid() && Value() == Rebuild(old(Value()), prior)
    {
      if current != Some(prior) || closing || closed {
        return;
      }
      AbandonCurrent(Rebuilding);
    }

    method After(kind: Kind)
      requires Valid()
      modifies this`current, this`transports, this`gen, this`clean
      ensures Valid() && Value() == Resumed(old(Value()), kind)
    {
      match kind
      case Activating =>
        if current.Some? || !started || suspended || closing || closed {
          return;
        }
        CreateTransport();
      case Rebuilding =>
        if current.Some? || closing || closed {
          return;
        }
        if started && !suspended {
          CreateTransport();
        }
      case Retopic =>
        if started && !suspended && current.Some? {
          Pause(false);
        }
    }
  }
}
