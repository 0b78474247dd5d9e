/** Rate limit and backoff: how often the radio is asked to connect, and how soon to whom. */
module DialBackoff {
  import opened Options
  import opened Bytes
  import opened Dialer

  // ─── the cooldown ───────────────────────────────────────────────────────

  lemma Pow2Table(n: nat)
    requires n <= 4
    ensures Pow2(n) == [1, 2, 4, 8, 16][n]
  {}

  /** Between the base and the maximum, and never shorter after more failures. */
  lemma CooldownGrows(base: nat, fewer: nat, more: nat)
    requires 0 < fewer <= more && base <= DIAL_COOLDOWN_MAX
    ensures base <= Cooldown(base, fewer) <= Cooldown(base, more) <= DIAL_COOLDOWN_MAX
    ensures fewer == 1 ==> Cooldown(base, fewer) == base
    ensures fewer <= 4 && more == fewer + 1 ==> Cooldown(base, more) == MinInt(DIAL_COOLDOWN_MAX, 2 * Cooldown(base, fewer))
  {
    Pow2Table(MinInt(4, fewer - 1));
    Pow2Table(MinInt(4, more - 1));
  }

  // ─── what is remembered ─────────────────────────────────────────────────

  /** Of an aborted device, the record with its failures and the cooldown last written to it. */
  ghost predicate Remembers(devices: map<nat, Device>, written: map<nat, int>) {
    forall id | id in written :: id in devices && devices[id].failures > 0 && devices[id].coolUntil == written[id]
  }

  /** No cooldown reaches further than the longest backoff. */
  ghost predicate Expires(devices: map<nat, Device>, now: int) {
    forall id | id in devices :: devices[id].coolUntil <= now + DIAL_COOLDOWN_MAX
  }

  ghost predicate Memory(s: State) {
    s.now >= 0 && Remembers(s.devices, s.written) && Expires(s.devices, s.now)
  }

  /** No dial was started. */
  predicate Undialled(s: State, r: State) {
    r.connects == s.connects && r.lastDial == s.lastDial
  }

  /** Whoever has a dial timer had one before. */
  ghost predicate FewerDials(before: map<nat, Device>, after: map<nat, Device>) {
    forall id | id in after && after[id].timer.Some? :: id in before && before[id].timer.Some?
  }

  /** Nor was anyone held or let go, nor the flush timer touched. */
  ghost predicate Untouched(s: State, r: State) {
    Undialled(s, r) && r.candidates == s.candidates && r.dialTimer == s.dialTimer && FewerDials(s.devices, r.devices)
  }

  /** Or everyone was let go, and the flush timer with them. */
  ghost predicate Eased(s: State, r: State) {
    && Undialled(s, r) && FewerDials(s.devices, r.devices)
    && ((r.candidates == s.candidates && r.dialTimer == s.dialTimer) || (r.candidates == [] && r.dialTimer.None?))
  }

  lemma PutMemory(s: State, id: nat, d: Device)
    requires Memory(s) && d.failures == DeviceOf(s, id).failures && d.coolUntil == DeviceOf(s, id).coolUntil
    requires d.timer.Some? ==> DeviceOf(s, id).timer.Some?
    ensures Memory(Put(s, id, d)) && Untouched(s, Put(s, id, d))
  {}

  /** A record with a failure on it is never pruned. */
  lemma PruneMemory(s: State, id: nat)
    requires Memory(s)
    ensures Memory(Prune(s, id)) && Untouched(s, Prune(s, id))
  {
    DropRemembers(s.devices, s.written, id);
  }

  lemma DropRemembers(devices: map<nat, Device>, written: map<nat, int>, id: nat)
    requires Remembers(devices, written)
    ensures FewerDials(devices, devices) && FewerDials(devices, devices - {id})
    ensures id in devices && devices[id] == BLANK ==> Remembers(devices - {id}, written)
  {}

  lemma UnhandleMemory(s: State, id: nat)
    requires Memory(s) && id in s.devices
    ensures Memory(Unhandle(s, id)) && Untouched(s, Unhandle(s, id))
  {
    PutMemory(Disarm(s, s.devices[id].timer), id, s.devices[id].(timer := None));
  }

  lemma ClearDialMemory(s: State, id: nat)
    requires Memory(s)
    ensures Memory(ClearDial(s, id)) && Untouched(s, ClearDial(s, id))
  {
    if id in s.devices {
      UnhandleMemory(s, id);
      PruneMemory(Unhandle(s, id), id);
    }
  }

  /** What scanning leaves alone. */
  predicate SameBook(s: State, r: State) {
    && r.devices == s.devices && r.written == s.written && r.now == s.now
    && r.candidates == s.candidates && r.dialTimer == s.dialTimer && Undialled(s, r)
  }

  lemma StartScanSame(s: State)
    ensures SameBook(s, ArmScanRestart(s)) && SameBook(s, StartScan(s))
  {}

  lemma FailMemory(s: State, id: nat)
    requires Memory(s)
    ensures Memory(Fail(s, id)) && Untouched(s, Fail(s, id))
  {
    CooldownGrows(Base(s), DeviceOf(s, id).failures + 1, DeviceOf(s, id).failures + 1);
  }

  lemma AbortMemory(s: State, id: nat)
    requires Memory(s)
    ensures Memory(AbortDial(s, id)) && Untouched(s, AbortDial(s, id))
  {
    FailMemory(s, id);
    ClearDialMemory(Fail(s, id), id);
    StartScanSame(ClearDial(Fail(s, id), id));
  }

  /** An abort counts one more failure and holds the device off for the cooldown that earns. */
  lemma AbortHoldsOff(max: nat, s: State, id: nat, later: State)
    requires Memory(s)
    requires later.devices == AbortDial(s, id).devices && later.now < s.now + Cooldown(Base(s), DeviceOf(s, id).failures + 1)
    ensures var r := AbortDial(s, id);
            && id in r.devices && r.devices[id].failures == DeviceOf(s, id).failures + 1
            && id in r.written && r.written[id] == s.now + Cooldown(Base(s), DeviceOf(s, id).failures + 1)
            && r.devices[id].timer.None? && !Eligible(max, later, id)
  {
    FailMemory(s, id);
    StartScanSame(ClearDial(Fail(s, id), id));
  }

  lemma CoolMemory(s: State, id: nat, keep: bool)
    requires Memory(s)
    ensures Memory(Cool(s, id, keep)) && Untouched(s, Cool(s, id, keep))
  {}

  lemma EndMemory(s: State, id: nat, keep: bool)
    requires Memory(s)
    ensures Memory(EndCentral(s, id, keep)) && Untouched(s, EndCentral(s, id, keep))
  {
    CoolMemory(s, id, keep);
    ClearDialMemory(Cool(s, id, keep), id);
    StartScanSame(ClearDial(Cool(s, id, keep), id));
  }

  lemma LinkMemory(s: State, id: nat)
    requires Memory(s)
    ensures Memory(Link(s, id)) && Untouched(s, Link(s, id))
  {}

  lemma BindMemory(s: State, id: nat)
    requires Memory(s)
    ensures Memory(BindCentral(s, id)) && Untouched(s, BindCentral(s, id))
  {
    ClearDialMemory(s, id);
    LinkMemory(ClearDial(s, id), id);
    StartScanSame(Link(ClearDial(s, id), id));
  }

  lemma ClearDialsMemory(s: State)
    requires Memory(s)
    ensures Memory(ClearDials(s)) && Untouched(s, ClearDials(s))
  {}

  // ─── one dial at a time ─────────────────────────────────────────────────

  /** Either no dial was started, or exactly one, in an open window, of a device whose cooldown
      has passed. */
  ghost predicate AtMostOne(s: State, r: State) {
    || Undialled(s, r)
    || (exists f | MayDial(s, f) :: r.connects == s.connects + [Connect(f, s.now)] && r.lastDial == s.now)
  }

  predicate MayDial(s: State, f: Found) {
    WindowOpen(s) && DeviceOf(s, f.id).coolUntil <= s.now
  }

  lemma DialledMemory(s: State, f: Found)
    requires Memory(s)
    ensures Memory(Dialled(s, f))
  {}

  lemma DialMemory(s: State, f: Found, throws: bool)
    requires Memory(s)
    ensures Memory(Dial(s, f, throws))
    ensures Dial(s, f, throws).connects == s.connects + [Connect(f, s.now)] && Dial(s, f, throws).lastDial == s.now
    ensures Dial(s, f, throws).candidates == s.candidates
  {
    DialledMemory(s, f);
    AbortMemory(Dialled(s, f), f.id);
  }

  lemma HoldMemory(s: State, f: Found)
    requires Memory(s)
    ensures Memory(Hold(s, f)) && Undialled(s, Hold(s, f)) && Hold(s, f).devices == s.devices && Hold(s, f).now == s.now
  {
    FlushTimerSame(s.(candidates := SetCandidate(s.candidates, f)));
  }

  lemma FlushTimerSame(s: State)
    ensures SameBook(s, ArmFlushTimer(s).(dialTimer := s.dialTimer))
  {
    if s.dialTimer.None? {
      var due := s.lastDial + DIAL_MIN_INTERVAL;
      assert ArmFlushTimer(s)
          == s.(timers := s.timers[s.next := Flush(due)], dialTimer := Some(Alarm(s.next, due)), next := s.next + 1);
    }
  }

  lemma DiscoverMemory(max: nat, s: State, f: Found, throws: bool)
    requires Memory(s)
    ensures Memory(OnDiscover(max, s, f, throws)) && AtMostOne(s, OnDiscover(max, s, f, throws))
    ensures !WindowOpen(s) ==> Undialled(s, OnDiscover(max, s, f, throws))
  {
    if Eligible(max, s, f.id) {
      if WindowOpen(s) {
        assert MayDial(s, f);
        DialMemory(s, f, throws);
      } else {
        HoldMemory(s, f);
      }
    }
  }

  lemma {:induction false} DiscoverAllMemory(max: nat, s: State, held: seq<Found>, throws: bool)
    requires Memory(s)
    ensures var r := DiscoverAll(max, s, held, throws);
            Memory(r) && AtMostOne(s, r) && (!WindowOpen(s) ==> Undialled(s, r))
    decreases |held|
  {
    if held != [] {
      var f, rest := held[0], held[1..];
      DiscoverMemory(max, s, f, throws);
      if Eligible(max, s, f.id) && WindowOpen(s) {
        assert MayDial(s, f);
        DialMemory(s, f, throws);
        DiscoverAllMemory(max, Dial(s, f, throws), rest, throws);
      } else if Eligible(max, s, f.id) {
        HoldMemory(s, f);
        DiscoverAllMemory(max, Hold(s, f), rest, throws);
      } else {
        DiscoverAllMemory(max, s, rest, throws);
      }
    }
  }

  /** One step: the clock does not run backwards, aborted devices stay on record, and at most one
      dial starts, of a device allowed to be dialled. */
  ghost predicate Moves(s: State, r: State) {
    Memory(r) && AtMostOne(s, r) && r.now >= s.now
  }

  lemma DialMoves(max: nat, s: State, e: Event)
    requires Memory(s) && Enabled(s, e) && OfDialling(e)
    ensures Moves(s, ApplyDial(max, s, e))
  {
    match e
    case Discover(found, throws) => DiscoverMemory(max, s, found, throws);
    case FlushFires(throws) => DiscoverAllMemory(max, TakeCandidates(s), SortStrongest(s.candidates), throws);
    case DialTimesOut(timer) => AbortMemory(s.(timers := s.timers - {timer}), s.timers[timer].id);
    case DialAborts(id) => AbortMemory(s, id);
    case CentralEnds(id, keep) => EndMemory(s, id, keep);
    case AlreadyLinked(id, key) =>
      PutMemory(s, id, DeviceOf(s, id).(peerKey := Some(key)));
      EndMemory(SetPeer(s, id, key), id, true);
    case CentralError => ClearDialsMemory(s);
  }

  lemma CloseMemory(s: State, id: nat)
    requires Memory(s)
    ensures Memory(CloseChannel(s, id)) && Untouched(s, CloseChannel(s, id))
  {
    if id in s.devices {
      PutMemory(s, id, s.devices[id].(linked := false));
      PruneMemory(Put(s, id, s.devices[id].(linked := false)), id);
    }
  }

  lemma TrackMemory(s: State, id: Option<nat>, key: Key, kept: bool)
    requires Memory(s)
    ensures Memory(OnTracked(s, id, key, kept)) && Untouched(s, OnTracked(s, id, key, kept))
  {
    if id.Some? {
      PutMemory(s, id.value, DeviceOf(s, id.value).(peerKey := Some(key)));
    }
  }

  lemma UntrackSame(s: State, entry: Option<Key>)
    ensures SameBook(s, OnUntracked(s, entry))
  {
    var r := if entry.Some? then s.(peers := s.peers - {entry.value}) else s;
    StartScanSame(Hunt(r));
    StartScanSame(StartScan(Hunt(r)));
  }

  lemma LinkMoves(s: State, e: Event)
    requires Memory(s) && OfLinks(e)
    ensures Moves(s, ApplyLink(s, e)) && Untouched(s, ApplyLink(s, e))
  {
    match e
    case Connected(id) => PutMemory(s, id, DeviceOf(s, id).(held := true));
    case CentralBinds(id) => BindMemory(s, id);
    case ChannelCloses(id) => CloseMemory(s, id);
    case StreamCloses(id) => if id in s.devices { PutMemory(s, id, s.devices[id].(held := false)); }
    case Tracked(id, key, kept) => TrackMemory(s, id, key, kept);
    case Untracked(entry) => UntrackSame(s, entry);
  }

  lemma TickSame(s: State)
    ensures SameBook(s, OnScanTick(s))
  {
    var r := StopScanTimer(s);
    StartScanSame(r);
    StartScanSame(StopScan(r));
  }

  lemma SetOnlineSame(s: State, online: bool)
    ensures SameBook(s, OnSetOnline(s, online))
  {
    StartScanSame(s.(online := online));
  }

  lemma ScanMoves(s: State, e: Event)
    requires Memory(s) && OfScanning(e)
    ensures Moves(s, ApplyScan(s, e)) && Untouched(s, ApplyScan(s, e))
  {
    match e
    case ServerBinds => StartScanSame(s);
    case ScanTicks => TickSame(s);
    case SetOnline(online) => SetOnlineSame(s, online);
    case PoweredOn => StartScanSame(s.(centralOn := true));
    case _ =>
  }

  lemma LifecycleMoves(s: State, e: Event)
    requires Memory(s) && !OfDialling(e) && !OfLinks(e) && !OfScanning(e)
    ensures Moves(s, ApplyLifecycle(s, e)) && Eased(s, ApplyLifecycle(s, e))
  {
    match e
    case SuspendBegins => SuspendMoves(s);
    case Resume => ResumeMoves(s);
    case RadioDown => RadioMoves(s);
    case CloseEnds => CloseEndMoves(s);
    case SuspendEnds => DropTableMemory(StopScan(s));
    case CloseBegins =>
  }

  lemma SuspendMoves(s: State)
    requires Memory(s)
    ensures Moves(s, OnSuspend(s)) && Eased(s, OnSuspend(s))
  {
    ClearTimersMemory(StopScanTimer(s).(phase := Draining));
  }

  lemma ResumeMoves(s: State)
    requires Memory(s)
    ensures Moves(s, OnResume(s)) && Eased(s, OnResume(s))
  {
    StartScanSame(Hunt(s.(phase := Running)));
  }

  lemma RadioMoves(s: State)
    requires Memory(s)
    ensures Moves(s, OnRadioDown(s)) && Eased(s, OnRadioDown(s))
  {
    ClearTimersMemory(s);
    DropTableMemory(ClearDeviceTimers(s));
  }

  lemma CloseEndMoves(s: State)
    requires Memory(s)
    ensures Moves(s, ApplyLifecycle(s, CloseEnds)) && Eased(s, ApplyLifecycle(s, CloseEnds))
  {
    ClearTimersMemory(StopScanTimer(s));
    DropTableMemory(ClearDeviceTimers(StopScanTimer(s)));
  }

  lemma DropTableMemory(s: State)
    requires Memory(s)
    ensures Memory(DropTable(s)) && Untouched(s, DropTable(s))
  {}

  lemma ClearTimersMemory(s: State)
    requires Memory(s)
    ensures Memory(ClearDeviceTimers(s)) && Eased(s, ClearDeviceTimers(s))
  {}

  lemma StepMoves(max: nat, s: State, e: Event)
    requires Memory(s)
    ensures Moves(s, Step(max, s, e))
  {
    if Enabled(s, e) {
      if OfDialling(e) {
        DialMoves(max, s, e);
      } else if OfLinks(e) {
        LinkMoves(s, e);
      } else if OfScanning(e) {
        ScanMoves(s, e);
      } else {
        LifecycleMoves(s, e);
      }
    }
  }

  // ─── runs ───────────────────────────────────────────────────────────────

  /** The dials so far, spaced by the rate limit. */
  ghost predicate Spaced(connects: seq<Connect>) {
    forall i | 0 <= i < |connects| - 1 :: connects[i].at + DIAL_MIN_INTERVAL <= connects[i + 1].at
  }

  ghost predicate Paced(s: State) {
    Spaced(s.connects) && (s.connects != [] ==> s.connects[|s.connects| - 1].at == s.lastDial)
  }

  lemma OnePaced(s: State, r: State)
    requires Paced(s) && AtMostOne(s, r)
    ensures Paced(r)
  {}

  /** Main: in every run, consecutive dials are at least DIAL_MIN_INTERVAL apart and every aborted
      device keeps its record and its last cooldown until it links or the table is cleared. */
  lemma {:induction false} RunPaced(max: nat, now: nat, centralOn: bool, online: bool, events: seq<Event>)
    ensures var r := Run(max, Init(now, centralOn, online), events); Memory(r) && Paced(r)
  {
    var s := Init(now, centralOn, online);
    if events != [] {
      var front, e := events[..|events| - 1], events[|events| - 1];
      RunPaced(max, now, centralOn, online, front);
      StepMoves(max, Run(max, s, front), e);
      OnePaced(Run(max, s, front), Run(max, s, events));
    }
  }

  /** Main: in every run no dial starts in a closed window, or of a device before the cooldown on
      its record, whichever handler wrote it, has passed. */
  lemma NoEarlyDial(max: nat, now: nat, centralOn: bool, online: bool, events: seq<Event>, e: Event)
    ensures var s := Run(max, Init(now, centralOn, online), events);
            var r := Step(max, s, e);
            || r.connects == s.connects
            || exists f :: && r.connects == s.connects + [Connect(f, s.now)]
                           && DeviceOf(s, f.id).coolUntil <= s.now && s.lastDial + DIAL_MIN_INTERVAL <= s.now
                           && (f.id in s.written ==> s.written[f.id] <= s.now)
  {
    var s := Run(max, Init(now, centralOn, online), events);
    RunPaced(max, now, centralOn, online, events);
    StepMoves(max, s, e);
    if f :| MayDial(s, f) && Step(max, s, e).connects == s.connects + [Connect(f, s.now)] {
      assert f.id in s.written ==> f.id in s.devices && s.devices[f.id].coolUntil == s.written[f.id];
    }
  }
}
