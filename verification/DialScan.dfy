/** The scan cycle never stalls: while the transport works, a scan timer is armed. */
module DialScan {
  import opened Options
  import opened Bytes
  import opened Dialer
  import opened DialTimers

  /** A scan timer is armed, unless the radio is off and no scan was started. */
  predicate Scans(s: State) {
    s.scanTimer.Some? || (!s.scanning && !s.centralOn)
  }

  ghost predicate ScanOk(s: State) {
    && (!Halted(s) && !s.radioCycled ==> Scans(s))
    && (s.phase.Parked? ==> !s.scanning)
    && (s.radioWasDown ==> s.radioCycled)
  }

  /** What every handler outside the lifecycle does to the scan. */
  ghost predicate Keeps(s: State, r: State) {
    && (!Halted(s) && Scans(s) ==> Scans(r))
    && (Halted(s) && r.scanning ==> s.scanning)
    && r.radioWasDown == s.radioWasDown
  }

  lemma StartScanKeeps(s: State)
    ensures Keeps(s, StartScan(s)) && (!Halted(s) && s.centralOn && !s.scanning ==> Scans(StartScan(s)))
  {}

  /** No scan field is touched. */
  predicate Apart(s: State, r: State) {
    r.scanTimer == s.scanTimer && r.scanning == s.scanning && r.centralOn == s.centralOn && r.radioWasDown == s.radioWasDown
  }

  lemma PruneApart(s: State, id: nat)
    ensures Apart(s, Prune(s, id))
  {}

  lemma ClearDialKeeps(s: State, id: nat)
    ensures Apart(s, ClearDial(s, id)) && Keeps(s, ClearDial(s, id))
  {
    if id in s.devices {
      PruneApart(Unhandle(s, id), id);
    }
  }

  lemma AbortKeeps(s: State, id: nat)
    ensures Keeps(s, AbortDial(s, id))
  {
    ClearDialKeeps(Fail(s, id), id);
    StartScanKeeps(ClearDial(Fail(s, id), id));
  }

  lemma EndKeeps(s: State, id: nat, keep: bool)
    ensures Keeps(s, EndCentral(s, id, keep))
  {
    ClearDialKeeps(Cool(s, id, keep), id);
    StartScanKeeps(ClearDial(Cool(s, id, keep), id));
  }

  lemma BindKeeps(s: State, id: nat)
    ensures Keeps(s, BindCentral(s, id))
  {
    ClearDialKeeps(s, id);
    StartScanKeeps(Link(ClearDial(s, id), id));
  }

  lemma DialKeeps(s: State, f: Found, throws: bool)
    ensures Keeps(s, Dial(s, f, throws))
  {
    AbortKeeps(Dialled(s, f), f.id);
  }

  lemma DiscoverKeeps(max: nat, s: State, f: Found, throws: bool)
    ensures Keeps(s, OnDiscover(max, s, f, throws))
  {
    if Eligible(max, s, f.id) && WindowOpen(s) {
      DialKeeps(s, f, throws);
    } else {
      HoldKeeps(s, f);
    }
  }

  lemma HoldKeeps(s: State, f: Found)
    ensures Keeps(s, Hold(s, f))
  {
    FlushTimerApart(s.(candidates := SetCandidate(s.candidates, f)));
  }

  lemma FlushTimerApart(s: State)
    ensures Apart(s, ArmFlushTimer(s))
  {}

  lemma {:induction false} DiscoverAllKeeps(max: nat, s: State, held: seq<Found>, throws: bool)
    ensures Keeps(s, DiscoverAll(max, s, held, throws))
    decreases |held|
  {
    if held != [] {
      DiscoverKeeps(max, s, held[0], throws);
      DiscoverAllKeeps(max, OnDiscover(max, s, held[0], throws), held[1..], throws);
    }
  }

  lemma DialStepKeeps(max: nat, s: State, e: Event)
    requires Enabled(s, e) && OfDialling(e)
    ensures Keeps(s, ApplyDial(max, s, e))
  {
    match e
    case Discover(found, throws) => DiscoverKeeps(max, s, found, throws);
    case FlushFires(throws) => DiscoverAllKeeps(max, TakeCandidates(s), SortStrongest(s.candidates), throws);
    case DialTimesOut(timer) => AbortKeeps(s.(timers := s.timers - {timer}), s.timers[timer].id);
    case DialAborts(id) => AbortKeeps(s, id);
    case CentralEnds(id, keep) => EndKeeps(s, id, keep);
    case AlreadyLinked(id, key) => EndKeeps(SetPeer(s, id, key), id, true);
    case CentralError =>
  }

  lemma UntrackKeeps(s: State, entry: Option<Key>)
    ensures Keeps(s, OnUntracked(s, entry)) && OnUntracked(s, entry).radioCycled == s.radioCycled
  {}

  lemma CloseKeeps(s: State, id: nat)
    ensures Keeps(s, CloseChannel(s, id)) && CloseChannel(s, id).radioCycled == s.radioCycled
  {
    if id in s.devices {
      PruneApart(Put(s, id, s.devices[id].(linked := false)), id);
    }
  }

  lemma TrackKeeps(s: State, id: Option<nat>, key: Key, kept: bool)
    ensures Keeps(s, OnTracked(s, id, key, kept)) && OnTracked(s, id, key, kept).radioCycled == s.radioCycled
  {}

  lemma PutKeeps(s: State, id: nat, d: Device)
    ensures Keeps(s, Put(s, id, d)) && Put(s, id, d).radioCycled == s.radioCycled
  {}

  lemma LinkStepKeeps(s: State, e: Event)
    requires OfLinks(e)
    ensures Keeps(s, ApplyLink(s, e)) && ApplyLink(s, e).radioCycled == s.radioCycled
  {
    match e
    case CentralBinds(id) => BindKeeps(s, id);
    case ChannelCloses(id) => CloseKeeps(s, id);
    case Untracked(entry) => UntrackKeeps(s, entry);
    case Tracked(id, key, kept) => TrackKeeps(s, id, key, kept);
    case Connected(id) => PutKeeps(s, id, DeviceOf(s, id).(held := true));
    case StreamCloses(id) => if id in s.devices { PutKeeps(s, id, s.devices[id].(held := false)); }
  }

  lemma SetOnlineOk(s: State, online: bool)
    requires ScanOk(s)
    ensures ScanOk(OnSetOnline(s, online))
  {}

  lemma PoweredOnOk(s: State)
    requires ScanOk(s)
    ensures ScanOk(OnPoweredOn(s))
  {}

  /** The timer that fires is replaced, or the scan is off and so is the radio. */
  lemma ScanTickOk(s: State)
    requires ScanOk(s) && s.scanTimer.Some?
    ensures ScanOk(OnScanTick(s))
  {
    var r := StopScanTimer(s);
    ArmScans(r);
    ArmScans(StopScan(r));
    if !Halted(s) {
      TickScans(s);
    }
  }

  lemma ArmScans(s: State)
    ensures var r := ArmScanRestart(s);
            r.scanTimer.Some? && r.scanning == s.scanning && r.centralOn == s.centralOn && r.radioWasDown == s.radioWasDown
  {}

  lemma TickScans(s: State)
    requires !Halted(s)
    ensures Scans(OnScanTick(s)) && OnScanTick(s).radioWasDown == s.radioWasDown
  {
    var r := StopScanTimer(s);
    ArmScans(r);
    ArmScans(StopScan(r));
  }

  lemma ScanStepOk(s: State, e: Event)
    requires ScanOk(s) && OfScanning(e)
    ensures ScanOk(ApplyScan(s, e))
  {
    match e
    case ServerBinds => StartScanKeeps(s);
    case ScanTicks => if s.scanTimer.Some? { ScanTickOk(s); }
    case SetOnline(online) => SetOnlineOk(s, online);
    case PoweredOn => PoweredOnOk(s);
    case _ =>
  }

  lemma LifecycleOk(s: State, e: Event)
    requires ScanOk(s) && Enabled(s, e) && !OfDialling(e) && !OfLinks(e) && !OfScanning(e)
    ensures ScanOk(ApplyLifecycle(s, e))
  {}

  lemma KeepsOk(s: State, r: State)
    requires ScanOk(s) && Keeps(s, r) && r.phase == s.phase && r.closing == s.closing && r.radioCycled == s.radioCycled
    ensures ScanOk(r)
  {}

  lemma StepScanOk(max: nat, s: State, e: Event)
    requires ScanOk(s)
    ensures ScanOk(Step(max, s, e))
  {
    if Enabled(s, e) {
      if OfDialling(e) {
        DialStepKeeps(max, s, e);
        KeepsOk(s, ApplyDial(max, s, e));
      } else if OfLinks(e) {
        LinkStepKeeps(s, e);
        KeepsOk(s, ApplyLink(s, e));
      } else if OfScanning(e) {
        ScanStepOk(s, e);
      } else {
        LifecycleOk(s, e);
      }
    }
  }

  lemma {:induction false} RunScanOk(max: nat, now: int, centralOn: bool, online: bool, events: seq<Event>)
    ensures ScanOk(Run(max, Init(now, centralOn, online), events))
  {
    if events != [] {
      RunScanOk(max, now, centralOn, online, events[..|events| - 1]);
      StepScanOk(max, Run(max, Init(now, centralOn, online), events[..|events| - 1]), events[|events| - 1]);
    }
  }

  /** Main: in every run from an opened transport, while it is not halted, its radio is on and has
      not power-cycled, exactly one scan timer is armed. */
  lemma ScanNeverStalls(max: nat, now: int, centralOn: bool, online: bool, events: seq<Event>) returns (t: nat)
    requires var s := Run(max, Init(now, centralOn, online), events); !Halted(s) && s.centralOn && !s.radioCycled
    ensures var s := Run(max, Init(now, centralOn, online), events);
            t in s.timers && s.timers[t].ScanTick? && forall u | u in s.timers && s.timers[u].ScanTick? :: u == t
  {
    var s := Run(max, Init(now, centralOn, online), events);
    RunScanOk(max, now, centralOn, online, events);
    RunBook(max, now, centralOn, online, events);
    t := s.scanTimer.value;
    forall u | u in s.timers && s.timers[u].ScanTick?
      ensures u == t
    {
      assert Owned(s.timers, u, s.devices, s.dialTimer, s.scanTimer);
    }
  }

  // ─── the cadence ────────────────────────────────────────────────────────

  /** The delay of the scan timer that is armed. */
  function Armed(s: State): Option<Timer> {
    if s.scanTimer.Some? && s.scanTimer.value in s.timers then Some(s.timers[s.scanTimer.value]) else None
  }

  lemma ArmArms(s: State)
    ensures var r := ArmScanRestart(s); Armed(r) == Some(ScanTick(ScanDelay(s))) && r.scanning == s.scanning
  {}

  /** While a dial is in flight the tick only postpones. */
  lemma DialPostpones(s: State)
    requires !Halted(s) && s.scanTimer.Some? && IsDialing(s)
    ensures var r := OnScanTick(s); r.scanning == s.scanning && Armed(r).Some?
  {
    var q := StopScanTimer(s);
    assert IsDialing(q);
    ArmArms(q);
  }

  /** Otherwise, with power to save, ticks alternate a short scan with a dark window, the longest
      one only for a lonely node that is online; without, each tick restarts the scan for another
      five seconds. */
  lemma TickCadence(s: State)
    requires !Halted(s) && s.centralOn && s.scanTimer.Some? && !IsDialing(s)
    ensures var r := OnScanTick(s);
            && r.scanning == ((s.peers == {} && (!s.online || s.now < s.huntUntil)) || !s.scanning)
            && Armed(r) == Some(ScanTick(if r.scanning then 5000 else if s.peers != {} then 25000 else 55000))
  {
    var q := StopScanTimer(s);
    assert !IsDialing(q) && Duty(q) == Duty(s);
    ArmArms(StopScan(q));
    ArmArms(q.(scanning := true));
    ArmArms(StopScan(q).(scanning := true));
  }

  /** Losing the last link, or a resume, starts an eager hunt: the scan is on and restarted every
      five seconds, online or not. */
  lemma LossHunts(s: State, entry: Option<Key>)
    requires !Halted(s) && s.centralOn && s.peers - (if entry.Some? then {entry.value} else {}) == {}
    ensures var r := OnUntracked(s, entry); r.scanning && Armed(r) == Some(ScanTick(5000)) && r.huntUntil == s.now + 60000
  {
    var q := if entry.Some? then s.(peers := s.peers - {entry.value}) else s;
    assert !Duty(Hunt(q));
  }

  lemma ResumeHunts(s: State)
    requires s.phase.Parked? && ScanOk(s) && !s.closing && s.centralOn && s.peers == {}
    ensures var r := OnResume(s); r.scanning && Armed(r) == Some(ScanTick(5000)) && r.huntUntil == s.now + 60000
  {}

  // ─── a resume inside a suspend ──────────────────────────────────────────

  /** The end of `suspend` after its drain runs whether or not `resume` came in between. */
  function Tail(s: State): State {
    DropTable(StopScan(s)).(peers := {})
  }

  /** A resume that overtakes the drain leaves a running transport without scan or scan timer
      exactly when a scan was still on, or the radio off, at that moment; */
  lemma OverlappingResume(s: State)
    requires s.phase.Draining? && !s.closing && s.scanTimer.None?
    ensures var r := Tail(OnResume(s));
            !Halted(r) && !r.scanning && (r.scanTimer.None? <==> s.scanning || !s.centralOn)
  {}

  /** which a suspend of a freshly opened transport reaches at once; */
  lemma OverlapRun(max: nat, now: int, online: bool)
    ensures var s := Run(max, Init(now, true, online), [SuspendBegins]);
            var r := Tail(OnResume(s));
            && s.phase.Draining? && !s.closing && s.scanning && s.centralOn && s.scanTimer.None?
            && !Halted(r) && r.centralOn && !r.radioCycled && !r.scanning && r.scanTimer.None?
  {
    assert [SuspendBegins][..0] == [];
  }

  /** and the next closing link, if there is one, starts it again. */
  lemma NextCloseRevives(s: State, entry: Option<Key>)
    requires s.phase.Draining? && !s.closing && s.centralOn
    ensures var r := OnUntracked(Tail(OnResume(s)), entry); r.scanning && r.scanTimer.Some?
  {}
}
