/** Timer bookkeeping of the scheduler: no timer is overwritten, orphaned or lost. */
module DialTimers {
  import opened Options
  import opened Bytes
  import opened Dialer

  type Timers = map<nat, Timer>
  type Devices = map<nat, Device>

  // ─── the book: armed timers against the handles kept of them ────────────

  /** An armed timer is the one its owner's handle names. */
  predicate Owned(timers: Timers, t: nat, devices: Devices, dial: Option<Alarm>, scan: Option<nat>)
    requires t in timers
  {
    match timers[t]
    case DialTimeout(id) => id in devices && devices[id].timer == Some(t)
    case Flush(due) => dial == Some(Alarm(t, due))
    case ScanTick(_) => scan == Some(t)
  }

  predicate DeviceHandle(timers: Timers, id: nat, handle: Option<nat>) {
    handle.Some? ==> handle.value in timers && timers[handle.value] == DialTimeout(id)
  }

  ghost predicate Balanced(timers: Timers, next: nat, devices: Devices, dial: Option<Alarm>, scan: Option<nat>) {
    && (forall t | t in timers :: t < next && Owned(timers, t, devices, dial, scan))
    && (forall id | id in devices :: DeviceHandle(timers, id, devices[id].timer))
    && (dial.Some? ==> dial.value.handle in timers && timers[dial.value.handle] == Flush(dial.value.due))
    && (scan.Some? ==> scan.value in timers && timers[scan.value].ScanTick?)
  }

  ghost predicate UniqueIds(held: seq<Found>) {
    forall i, j | 0 <= i < j < |held| :: held[i].id != held[j].id
  }

  ghost predicate HeldOk(held: seq<Found>, dial: Option<Alarm>) {
    (held != [] <==> dial.Some?) && UniqueIds(held)
  }

  /** Between events: the armed timers are exactly those named by a device's handle, the flush
      handle and the scan handle, and candidates are held exactly while the flush timer is armed. */
  ghost predicate Book(s: State) {
    && Balanced(s.timers, s.next, s.devices, s.dialTimer, s.scanTimer)
    && HeldOk(s.candidates, s.dialTimer)
  }

  lemma SetRecord(timers: Timers, next: nat, devices: Devices, dial: Option<Alarm>, scan: Option<nat>, id: nat, d: Device)
    requires Balanced(timers, next, devices, dial, scan)
    requires d.timer == if id in devices then devices[id].timer else None
    ensures Balanced(timers, next, devices[id := d], dial, scan)
  {}

  lemma DropRecord(timers: Timers, next: nat, devices: Devices, dial: Option<Alarm>, scan: Option<nat>, id: nat)
    requires Balanced(timers, next, devices, dial, scan) && id in devices && devices[id].timer.None?
    ensures Balanced(timers, next, devices - {id}, dial, scan)
  {}

  lemma DisarmRecord(timers: Timers, next: nat, devices: Devices, dial: Option<Alarm>, scan: Option<nat>, id: nat)
    requires Balanced(timers, next, devices, dial, scan) && id in devices
    ensures Balanced(Without(timers, devices[id].timer), next, devices[id := devices[id].(timer := None)], dial, scan)
  {
    assert DeviceHandle(timers, id, devices[id].timer);
  }

  lemma ArmRecord(timers: Timers, next: nat, devices: Devices, dial: Option<Alarm>, scan: Option<nat>, id: nat, d: Device)
    requires Balanced(timers, next, devices, dial, scan)
    requires (id in devices ==> devices[id].timer.None?) && d.timer == Some(next)
    ensures Balanced(timers[next := DialTimeout(id)], next + 1, devices[id := d], dial, scan)
  {}

  lemma DisarmScan(timers: Timers, next: nat, devices: Devices, dial: Option<Alarm>, scan: Option<nat>)
    requires Balanced(timers, next, devices, dial, scan)
    ensures Balanced(Without(timers, scan), next, devices, dial, None)
  {}

  lemma ArmScan(timers: Timers, next: nat, devices: Devices, dial: Option<Alarm>, delay: nat)
    requires Balanced(timers, next, devices, dial, None)
    ensures Balanced(timers[next := ScanTick(delay)], next + 1, devices, dial, Some(next))
  {}

  lemma DisarmFlush(timers: Timers, next: nat, devices: Devices, dial: Option<Alarm>, scan: Option<nat>)
    requires Balanced(timers, next, devices, dial, scan)
    ensures Balanced(Without(timers, Handle(dial)), next, devices, None, scan)
  {}

  lemma ArmFlush(timers: Timers, next: nat, devices: Devices, scan: Option<nat>, due: int)
    requires Balanced(timers, next, devices, None, scan)
    ensures Balanced(timers[next := Flush(due)], next + 1, devices, Some(Alarm(next, due)), scan)
  {}

  /** Clearing every dial timer, keeping any of the records that name none afterwards. */
  lemma DisarmAll(timers: Timers, next: nat, devices: Devices, dial: Option<Alarm>, scan: Option<nat>, kept: Devices)
    requires Balanced(timers, next, devices, dial, scan)
    requires forall id | id in kept :: kept[id].timer.None?
    ensures Balanced(timers - Handles(devices), next, kept, dial, scan)
    ensures forall t | t in timers - Handles(devices) :: !timers[t].DialTimeout?
  {
    forall t | t in timers - Handles(devices)
      ensures !timers[t].DialTimeout?
    {
      assert Owned(timers, t, devices, dial, scan);
    }
    forall t | t in timers && !timers[t].DialTimeout?
      ensures t !in Handles(devices)
    {
      if id :| id in devices && devices[id].timer == Some(t) {
        assert DeviceHandle(timers, id, devices[id].timer);
      }
    }
  }

  // ─── the handlers ───────────────────────────────────────────────────────

  lemma PutBook(s: State, id: nat, d: Device)
    requires Book(s) && d.timer == DeviceOf(s, id).timer
    ensures Book(Put(s, id, d))
  {
    SetRecord(s.timers, s.next, s.devices, s.dialTimer, s.scanTimer, id, d);
  }

  lemma PruneBook(s: State, id: nat)
    requires Book(s)
    ensures Book(Prune(s, id))
  {
    if id in s.devices && s.devices[id] == BLANK {
      DropRecord(s.timers, s.next, s.devices, s.dialTimer, s.scanTimer, id);
    }
  }

  lemma UnhandleBook(s: State, id: nat)
    requires Book(s) && id in s.devices
    ensures Book(Unhandle(s, id))
  {
    DisarmRecord(s.timers, s.next, s.devices, s.dialTimer, s.scanTimer, id);
  }

  lemma ClearDialBook(s: State, id: nat)
    requires Book(s)
    ensures Book(ClearDial(s, id))
  {
    if id in s.devices {
      UnhandleBook(s, id);
      PruneBook(Unhandle(s, id), id);
    }
  }

  lemma ArmScanBook(s: State)
    requires Book(s)
    ensures Book(ArmScanRestart(s))
  {
    DisarmScan(s.timers, s.next, s.devices, s.dialTimer, s.scanTimer);
    var r := Disarm(s, s.scanTimer);
    ArmScan(r.timers, s.next, s.devices, s.dialTimer, ScanDelay(s));
  }

  lemma StartScanBook(s: State)
    requires Book(s)
    ensures Book(StartScan(s))
  {
    ArmScanBook(s.(scanning := true));
  }

  lemma RecordBook(s: State, id: nat, d: Device, r: State)
    requires Book(s) && d.timer == DeviceOf(s, id).timer && r.devices == s.devices[id := d]
    requires r.timers == s.timers && r.next == s.next && r.dialTimer == s.dialTimer && r.scanTimer == s.scanTimer
    requires r.candidates == s.candidates
    ensures Book(r)
  {
    SetRecord(s.timers, s.next, s.devices, s.dialTimer, s.scanTimer, id, d);
  }

  lemma AbortBook(s: State, id: nat)
    requires Book(s)
    ensures Book(AbortDial(s, id))
  {
    var r := Fail(s, id);
    RecordBook(s, id, r.devices[id], r);
    ClearDialBook(r, id);
    StartScanBook(ClearDial(r, id));
  }

  lemma EndCentralBook(s: State, id: nat, keep: bool)
    requires Book(s)
    ensures Book(EndCentral(s, id, keep))
  {
    var r := Cool(s, id, keep);
    RecordBook(s, id, r.devices[id], r);
    ClearDialBook(r, id);
    StartScanBook(ClearDial(r, id));
  }

  /** A dial timer that fired is the one its device still holds, so its handler is an abort like
      any other. */
  lemma TimeoutIsAbort(s: State, t: nat)
    requires Book(s) && t in s.timers && s.timers[t].DialTimeout?
    ensures AbortDial(s.(timers := s.timers - {t}), s.timers[t].id) == AbortDial(s, s.timers[t].id)
  {
    var id := s.timers[t].id;
    assert Owned(s.timers, t, s.devices, s.dialTimer, s.scanTimer);
    assert Fail(Fired(s, t), id) == Fired(Fail(s, id), t);
    UnhandleFired(Fail(s, id), id, t);
  }

  function Fired(s: State, t: nat): State {
    s.(timers := s.timers - {t})
  }

  lemma UnhandleFired(s: State, id: nat, t: nat)
    requires id in s.devices && s.devices[id].timer == Some(t)
    ensures Unhandle(Fired(s, t), id) == Unhandle(s, id)
  {
    assert s.timers - {t} - {t} == s.timers - {t};
  }

  lemma {:induction false} SetCandidateUnique(held: seq<Found>, f: Found)
    requires UniqueIds(held)
    ensures UniqueIds(SetCandidate(held, f)) && SetCandidate(held, f) != []
    ensures forall c | c in SetCandidate(held, f) :: c == f || (c in held && c.id != f.id)
  {
    if held != [] && held[0].id != f.id {
      SetCandidateUnique(held[1..], f);
      var rest := SetCandidate(held[1..], f);
      forall j | 0 <= j < |rest|
        ensures rest[j].id != held[0].id
      {
        assert rest[j] in rest;
      }
    }
  }

  lemma HoldBook(s: State, f: Found)
    requires Book(s)
    ensures Book(Hold(s, f))
  {
    SetCandidateUnique(s.candidates, f);
    if s.dialTimer.None? {
      ArmFlush(s.timers, s.next, s.devices, s.scanTimer, s.lastDial + DIAL_MIN_INTERVAL);
    }
  }

  /** A dial arms a timer where the device had none. */
  lemma DialBook(s: State, f: Found, throws: bool)
    requires Book(s) && DeviceOf(s, f.id).timer.None?
    ensures Book(Dial(s, f, throws))
  {
    DialledBook(s, f);
    AbortBook(Dialled(s, f), f.id);
  }

  lemma DialledBook(s: State, f: Found)
    requires Book(s) && DeviceOf(s, f.id).timer.None?
    ensures Book(Dialled(s, f))
  {
    ArmRecord(s.timers, s.next, s.devices, s.dialTimer, s.scanTimer, f.id, DeviceOf(s, f.id).(timer := Some(s.next)));
  }

  lemma DiscoverBook(max: nat, s: State, f: Found, throws: bool)
    requires Book(s)
    ensures Book(OnDiscover(max, s, f, throws))
  {
    if Eligible(max, s, f.id) {
      HoldBook(s, f);
      DialBook(s, f, throws);
    }
  }

  lemma {:induction false} DiscoverAllBook(max: nat, s: State, held: seq<Found>, throws: bool)
    requires Book(s)
    ensures Book(DiscoverAll(max, s, held, throws))
    decreases |held|
  {
    if held != [] {
      DiscoverBook(max, s, held[0], throws);
      DiscoverAllBook(max, OnDiscover(max, s, held[0], throws), held[1..], throws);
    }
  }

  lemma TakeCandidatesBook(s: State)
    requires Balanced(s.timers, s.next, s.devices, s.dialTimer, s.scanTimer)
    ensures Book(TakeCandidates(s))
  {
    DisarmFlush(s.timers, s.next, s.devices, s.dialTimer, s.scanTimer);
  }

  lemma FlushBook(max: nat, s: State, throws: bool)
    requires Book(s)
    ensures Book(OnFlush(max, s, throws))
  {
    TakeCandidatesBook(s);
    DiscoverAllBook(max, TakeCandidates(s), SortStrongest(s.candidates), throws);
  }

  lemma ClearDeviceTimersBook(s: State)
    requires Book(s)
    ensures Book(ClearDeviceTimers(s))
    ensures NoDials(ClearDeviceTimers(s))
  {
    var r := DisarmDials(s);
    DisarmAll(s.timers, s.next, s.devices, s.dialTimer, s.scanTimer, r.devices);
    TakeCandidatesBook(r);
  }

  /** No dial timer is armed and none waits to fire held candidates. */
  ghost predicate NoDials(s: State) {
    s.dialTimer.None? && Calm(s.timers)
  }

  ghost predicate Calm(timers: Timers) {
    forall t | t in timers :: !timers[t].DialTimeout?
  }

  lemma CalmAfter(timers: Timers, gone: set<nat>, next: nat, delay: nat)
    requires Calm(timers)
    ensures Calm(timers - gone) && Calm(timers[next := ScanTick(delay)])
  {}

  lemma ClearDialsBook(s: State)
    requires Book(s)
    ensures Book(ClearDials(s))
  {
    DisarmAll(s.timers, s.next, s.devices, s.dialTimer, s.scanTimer, ClearDials(s).devices);
  }

  lemma DropTableBook(s: State)
    requires Book(s) && NoDials(s)
    ensures Book(DropTable(s)) && NoDials(DropTable(s))
  {}

  lemma StopScanTimerBook(s: State)
    requires Book(s)
    ensures Book(StopScanTimer(s))
  {
    DisarmScan(s.timers, s.next, s.devices, s.dialTimer, s.scanTimer);
  }

  // ─── while suspended ────────────────────────────────────────────────────

  /** While draining or parked no dial timer is armed and nothing is held. */
  ghost predicate Quiet(s: State) {
    !s.phase.Running? ==> NoDials(s)
  }

  lemma CalmDisarm(s: State, timer: Option<nat>)
    requires NoDials(s)
    ensures NoDials(Disarm(s, timer))
  {
    CalmAfter(s.timers, if timer.Some? then {timer.value} else {}, 0, 0);
  }

  lemma CalmArm(s: State)
    requires NoDials(s)
    ensures NoDials(ArmScanRestart(s))
  {
    CalmDisarm(s, s.scanTimer);
    CalmAfter(Disarm(s, s.scanTimer).timers, {}, s.next, ScanDelay(s));
  }

  lemma CalmClear(s: State, id: nat)
    requires NoDials(s)
    ensures NoDials(ClearDial(s, id))
  {
    if id in s.devices {
      CalmDisarm(s, s.devices[id].timer);
    }
  }

  lemma CalmStart(s: State)
    requires NoDials(s)
    ensures NoDials(StartScan(s))
  {
    CalmArm(s.(scanning := true));
  }

  lemma CalmAbort(s: State, id: nat)
    requires NoDials(s)
    ensures NoDials(AbortDial(s, id))
  {
    CalmClear(Fail(s, id), id);
    CalmStart(ClearDial(Fail(s, id), id));
  }

  lemma CalmEnd(s: State, id: nat, keep: bool)
    requires NoDials(s)
    ensures NoDials(EndCentral(s, id, keep))
  {
    CalmClear(Cool(s, id, keep), id);
    CalmStart(ClearDial(Cool(s, id, keep), id));
  }

  lemma CalmBind(s: State, id: nat)
    requires NoDials(s)
    ensures NoDials(BindCentral(s, id))
  {
    CalmClear(s, id);
    CalmStart(Link(ClearDial(s, id), id));
  }

  lemma CalmScanTick(s: State)
    requires NoDials(s)
    ensures NoDials(OnScanTick(s))
  {
    var r := StopScanTimer(s);
    CalmDisarm(s, s.scanTimer);
    CalmArm(r);
    CalmArm(StopScan(r));
    CalmStart(r);
    CalmStart(StopScan(r));
  }

  lemma CalmUntrack(s: State, entry: Option<Key>)
    requires NoDials(s)
    ensures NoDials(OnUntracked(s, entry))
  {
    var r := if entry.Some? then s.(peers := s.peers - {entry.value}) else s;
    CalmStart(Hunt(r));
    CalmArm(StartScan(Hunt(r)));
  }

  /** While suspended no event arms a dial timer. */
  lemma DialQuiet(max: nat, s: State, e: Event)
    requires Quiet(s) && Enabled(s, e) && OfDialling(e)
    ensures Quiet(ApplyDial(max, s, e))
  {
    if s.phase.Running? {
      return;
    }
    match e
    case DialAborts(id) => CalmAbort(s, id);
    case CentralEnds(id, keep) => CalmEnd(s, id, keep);
    case AlreadyLinked(id, key) => CalmEnd(SetPeer(s, id, key), id, true);
    case CentralError => CalmAfter(s.timers, Handles(s.devices), 0, 0);
    case _ =>
  }

  lemma CalmClose(s: State, id: nat)
    requires NoDials(s)
    ensures NoDials(CloseChannel(s, id))
  {
    assert CloseChannel(s, id).timers == s.timers;
  }

  lemma LinkQuiet(s: State, e: Event)
    requires Quiet(s) && OfLinks(e)
    ensures Quiet(ApplyLink(s, e))
  {
    if s.phase.Running? {
      return;
    }
    match e
    case CentralBinds(id) => CalmBind(s, id);
    case Untracked(entry) => CalmUntrack(s, entry);
    case ChannelCloses(id) => CalmClose(s, id);
    case _ =>
  }

  lemma CalmOnline(s: State, online: bool)
    requires NoDials(s)
    ensures NoDials(OnSetOnline(s, online))
  {
    CalmStart(s.(online := online));
    CalmArm(s.(online := online));
  }

  lemma ScanQuiet(s: State, e: Event)
    requires Quiet(s) && OfScanning(e)
    ensures Quiet(ApplyScan(s, e))
  {
    if s.phase.Running? {
      return;
    }
    match e
    case ServerBinds => CalmStart(s);
    case ScanTicks => CalmScanTick(s);
    case SetOnline(online) => CalmOnline(s, online);
    case PoweredOn => CalmStart(s.(centralOn := true));
    case _ =>
  }

  lemma CalmLifecycle(s: State, e: Event)
    requires Book(s) && NoDials(s) && !OfDialling(e) && !OfLinks(e) && !OfScanning(e)
    ensures NoDials(ApplyLifecycle(s, e))
  {
    match e
    case Resume => CalmStart(Hunt(s.(phase := Running)));
    case RadioDown => RadioBook(s);
    case CloseEnds => CloseBook(s);
    case SuspendBegins => SuspendBook(s);
    case _ =>
  }

  lemma SuspendBook(s: State)
    requires Book(s)
    ensures var r := ClearDeviceTimers(StopScanTimer(s).(phase := Draining)); Book(r) && NoDials(r)
  {
    StopScanTimerBook(s);
    ClearDeviceTimersBook(StopScanTimer(s).(phase := Draining));
  }

  lemma RadioBook(s: State)
    requires Book(s)
    ensures var r := DropTable(ClearDeviceTimers(s)); Book(r) && NoDials(r)
  {
    ClearDeviceTimersBook(s);
    DropTableBook(ClearDeviceTimers(s));
  }

  lemma CloseBook(s: State)
    requires Book(s)
    ensures var r := DropTable(ClearDeviceTimers(StopScanTimer(s))); Book(r) && NoDials(r)
  {
    StopScanTimerBook(s);
    RadioBook(StopScanTimer(s));
  }

  lemma LifecycleQuiet(s: State, e: Event)
    requires Book(s) && Quiet(s) && Enabled(s, e) && !OfDialling(e) && !OfLinks(e) && !OfScanning(e)
    ensures Quiet(ApplyLifecycle(s, e))
  {
    if e.SuspendBegins? {
      SuspendBook(s);
    } else if e.CloseEnds? {
      CloseBook(s);
    } else if e.RadioDown? {
      RadioBook(s);
    } else if !s.phase.Running? {
      CalmLifecycle(s, e);
    }
  }

  lemma StepQuiet(max: nat, s: State, e: Event)
    requires Book(s) && Quiet(s)
    ensures Quiet(Step(max, s, e))
  {
    if Enabled(s, e) {
      if OfDialling(e) {
        DialQuiet(max, s, e);
      } else if OfLinks(e) {
        LinkQuiet(s, e);
      } else if OfScanning(e) {
        ScanQuiet(s, e);
      } else {
        LifecycleQuiet(s, e);
      }
    }
  }

  // ─── every step ─────────────────────────────────────────────────────────

  lemma LinkBook(s: State, e: Event)
    requires Book(s) && OfLinks(e)
    ensures Book(ApplyLink(s, e))
  {
    match e
    case Connected(id) => PutBook(s, id, DeviceOf(s, id).(held := true));
    case CentralBinds(id) => BindBook(s, id);
    case ChannelCloses(id) => CloseChannelBook(s, id);
    case StreamCloses(id) => if id in s.devices { PutBook(s, id, s.devices[id].(held := false)); }
    case Tracked(id, key, kept) => TrackBook(s, id, key, kept);
    case Untracked(entry) => UntrackBook(s, entry);
  }

  lemma CloseChannelBook(s: State, id: nat)
    requires Book(s)
    ensures Book(CloseChannel(s, id))
  {
    if id in s.devices {
      PutBook(s, id, s.devices[id].(linked := false));
      PruneBook(Put(s, id, s.devices[id].(linked := false)), id);
    }
  }

  lemma TrackBook(s: State, id: Option<nat>, key: Key, kept: bool)
    requires Book(s)
    ensures Book(OnTracked(s, id, key, kept))
  {
    if id.Some? {
      PutBook(s, id.value, DeviceOf(s, id.value).(peerKey := Some(key)));
    }
  }

  lemma BindBook(s: State, id: nat)
    requires Book(s)
    ensures Book(BindCentral(s, id))
  {
    ClearDialBook(s, id);
    var r := ClearDial(s, id);
    RecordBook(r, id, Link(r, id).devices[id], Link(r, id));
    StartScanBook(Link(r, id));
  }

  lemma UntrackBook(s: State, entry: Option<Key>)
    requires Book(s)
    ensures Book(OnUntracked(s, entry))
  {
    var r := if entry.Some? then s.(peers := s.peers - {entry.value}) else s;
    StartScanBook(Hunt(r));
    ArmScanBook(StartScan(Hunt(r)));
  }

  lemma TickBook(s: State)
    requires Book(s)
    ensures Book(OnScanTick(s))
  {
    var r := StopScanTimer(s);
    StopScanTimerBook(s);
    ArmScanBook(r);
    ArmScanBook(StopScan(r));
    StartScanBook(StopScan(r));
    StartScanBook(r);
  }

  lemma ScanBook(s: State, e: Event)
    requires Book(s) && OfScanning(e)
    ensures Book(ApplyScan(s, e))
  {
    match e
    case ScanTicks => TickBook(s);
    case SetOnline(online) =>
      StartScanBook(s.(online := online));
      ArmScanBook(s.(online := online));
    case PoweredOn => StartScanBook(s.(centralOn := true));
    case ServerBinds => StartScanBook(s);
    case _ =>
  }

  lemma LifecycleBook(s: State, e: Event)
    requires Book(s) && Quiet(s) && Enabled(s, e) && !OfDialling(e) && !OfLinks(e) && !OfScanning(e)
    ensures Book(ApplyLifecycle(s, e))
  {
    match e
    case RadioDown => RadioBook(s);
    case SuspendBegins => SuspendBook(s);
    case SuspendEnds => DropTableBook(StopScan(s));
    case Resume => StartScanBook(Hunt(s.(phase := Running)));
    case CloseEnds => CloseBook(s);
    case CloseBegins =>
  }

  lemma DialStepBook(max: nat, s: State, e: Event)
    requires Book(s) && Enabled(s, e) && OfDialling(e)
    ensures Book(ApplyDial(max, s, e))
  {
    match e
    case Discover(found, throws) => DiscoverBook(max, s, found, throws);
    case FlushFires(throws) => FlushBook(max, s, throws);
    case DialTimesOut(timer) =>
      TimeoutIsAbort(s, timer);
      AbortBook(s, s.timers[timer].id);
    case DialAborts(id) => AbortBook(s, id);
    case CentralEnds(id, keep) => EndCentralBook(s, id, keep);
    case AlreadyLinked(id, key) =>
      PutBook(s, id, DeviceOf(s, id).(peerKey := Some(key)));
      EndCentralBook(SetPeer(s, id, key), id, true);
    case CentralError => ClearDialsBook(s);
  }

  lemma StepBook(max: nat, s: State, e: Event)
    requires Book(s) && Quiet(s)
    ensures Book(Step(max, s, e))
  {
    if Enabled(s, e) {
      if OfDialling(e) {
        DialStepBook(max, s, e);
      } else if OfLinks(e) {
        LinkBook(s, e);
      } else if OfScanning(e) {
        ScanBook(s, e);
      } else {
        LifecycleBook(s, e);
      }
    }
  }

  lemma InitBook(now: int, centralOn: bool, online: bool)
    ensures Book(Init(now, centralOn, online)) && Quiet(Init(now, centralOn, online))
  {}

  /** In every run from a newly opened transport. */
  lemma {:induction false} RunBook(max: nat, now: int, centralOn: bool, online: bool, events: seq<Event>)
    ensures Book(Run(max, Init(now, centralOn, online), events)) && Quiet(Run(max, Init(now, centralOn, online), events))
  {
    var s := Init(now, centralOn, online);
    if events == [] {
      InitBook(now, centralOn, online);
    } else {
      var front, e := events[..|events| - 1], events[|events| - 1];
      RunBook(max, now, centralOn, online, front);
      StepBook(max, Run(max, s, front), e);
      StepQuiet(max, Run(max, s, front), e);
    }
  }

  /** Main: in every run the armed dial timers are exactly those the device records name, no two
      records name the same one, and a flush timer is armed exactly while candidates are held. */
  lemma ArmedAreHeld(max: nat, now: int, centralOn: bool, online: bool, events: seq<Event>)
    ensures var s := Run(max, Init(now, centralOn, online), events);
            && (set t | t in s.timers && s.timers[t].DialTimeout?) == Handles(s.devices)
            && (forall a, b | a in s.devices && b in s.devices && a != b && s.devices[a].timer.Some? :: s.devices[a].timer != s.devices[b].timer)
            && (s.candidates != [] <==> exists t :: t in s.timers && s.timers[t].Flush?)
  {
    RunBook(max, now, centralOn, online, events);
    var s := Run(max, Init(now, centralOn, online), events);
    forall t | t in s.timers
      ensures s.timers[t].DialTimeout? ==> t in Handles(s.devices)
      ensures s.timers[t].Flush? ==> s.candidates != []
    {
      assert Owned(s.timers, t, s.devices, s.dialTimer, s.scanTimer);
    }
    forall id | id in s.devices
      ensures DeviceHandle(s.timers, id, s.devices[id].timer)
    {}
  }

  /** A peer is refused by the tie-break only while a dial timer or the flush timer is armed. */
  lemma BusyHasTimer(s: State)
    requires Book(s)
    ensures Busy(s) <==> exists t :: t in s.timers && !s.timers[t].ScanTick?
  {
    if id :| id in s.devices && s.devices[id].timer.Some? {
      assert DeviceHandle(s.timers, id, s.devices[id].timer);
    }
    if t :| t in s.timers && !s.timers[t].ScanTick? {
      assert Owned(s.timers, t, s.devices, s.dialTimer, s.scanTimer);
    }
  }
}
