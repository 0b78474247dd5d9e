/** What the scheduler's events do to records, candidates, timers and the scan, written out on the
    state before and after. */
module DialLaws {
  import opened Options
  import opened Bytes
  import opened Dialer
  import opened DialTimers
  import opened DialBackoff
  import opened DialOrder

  // ─── whom to dial ───────────────────────────────────────────────────────

  /** Running with room for another link, and the peripheral neither linked, nor known to be a peer we
      have, nor cooling down, nor being dialled. */
  predicate Fitting(max: nat, s: State, id: nat) {
    && s.phase.Running? && !s.closing && |s.peers| < max
    && (id in s.devices ==>
          && !s.devices[id].linked
          && (s.devices[id].peerKey.Some? ==> s.devices[id].peerKey.value !in s.peers)
          && s.devices[id].coolUntil <= s.now
          && s.devices[id].timer.None?)
  }

  lemma EligibleIsFitting(max: nat, s: State, id: nat)
    ensures Eligible(max, s, id) <==> Fitting(max, s, id)
  {}

  /** Main: a discovery that does not fit is ignored altogether; one that does is dialled at once if
      500 ms have passed since the last dial, and otherwise held with a timer due when they have. */
  lemma DiscoverActs(max: nat, s: State, f: Found, throws: bool)
    requires Book(s)
    ensures var r := Step(max, s, Discover(f, throws));
            if !Fitting(max, s, f.id) then r == s
            else if s.now - s.lastDial >= 500 then
              r.connects == s.connects + [Connect(f, s.now)] && r.lastDial == s.now && r.candidates == s.candidates
            else
              && r.connects == s.connects && r.lastDial == s.lastDial && r.devices == s.devices
              && f in r.candidates && (forall c | c in r.candidates :: c == f || (c in s.candidates && c.id != f.id))
              && r.dialTimer.Some? && (s.dialTimer.None? ==> r.dialTimer.value.due == s.lastDial + 500)
              && (s.dialTimer.Some? ==> r.dialTimer == s.dialTimer)
  {
    EligibleIsFitting(max, s, f.id);
    if Fitting(max, s, f.id) {
      if s.now - s.lastDial >= 500 {
        DialSame(s, f, throws);
        DialSets(s, f, throws);
      } else {
        HoldSame(s, f);
        HoldAlarm(s, f);
        SetCandidateUnique(s.candidates, f);
        SetCandidateHolds(s.candidates, f);
      }
    }
  }

  lemma {:induction false} SetCandidateHolds(held: seq<Found>, f: Found)
    ensures f in SetCandidate(held, f)
  {
    if held != [] && held[0].id != f.id {
      SetCandidateHolds(held[1..], f);
      assert f in SetCandidate(held[1..], f);
    }
  }

  /** The signal, -100 where the radio reports none. */
  function Signal(f: Found): int {
    match f.rssi
    case Some(value) => value
    case None => -100
  }

  lemma RankIsSignal(f: Found)
    ensures Rank(f) == Signal(f)
  {}

  /** A flush dials the strongest of the held candidates that fit, holds the other fitting ones, and
      forgets those that do not fit any more. */
  lemma FlushFits(max: nat, s: State, throws: bool)
    requires Book(s)
    ensures var r := OnFlush(max, s, throws);
            if s.now - s.lastDial < 500 then
              r.connects == s.connects && forall c :: c in r.candidates <==> c in s.candidates && Fitting(max, s, c.id)
            else if forall c | c in s.candidates :: !Fitting(max, s, c.id) then
              r.connects == s.connects && r.candidates == []
            else
              && |r.connects| == |s.connects| + 1 && r.connects == s.connects + [r.connects[|s.connects|]]
              && (var f := r.connects[|s.connects|].found;
                  && f in s.candidates && Fitting(max, s, f.id)
                  && (forall c :: c in r.candidates <==> c in s.candidates && Fitting(max, s, c.id) && c != f)
                  && (forall c | c in s.candidates && Fitting(max, s, c.id) :: Signal(c) <= Signal(f)))
  {
    forall c: Found
      ensures Rank(c) == Signal(c) && (Eligible(max, s, c.id) <==> Fitting(max, s, c.id))
    {
      EligibleIsFitting(max, s, c.id);
      RankIsSignal(c);
    }
    if WindowOpen(s) {
      FlushDialsStrongest(max, s, throws);
      FirstOfFit(Fit(max, s, SortStrongest(s.candidates)));
    } else {
      FlushClosed(max, s, throws);
    }
  }

  lemma FirstOfFit(fit: seq<Found>)
    requires Sorted(fit) && UniqueIds(fit)
    ensures fit != [] ==> (forall c :: c in fit[1..] <==> c in fit && c != fit[0]) && forall c | c in fit :: Rank(c) <= Rank(fit[0])
  {
    if fit != [] {
      forall c
        ensures c in fit[1..] <==> c in fit && c != fit[0]
      {
        if c in fit[1..] {
          var i :| 0 <= i < |fit[1..]| && fit[1..][i] == c;
          assert fit[i + 1] == c;
        }
        if c in fit && c != fit[0] {
          var i :| 0 <= i < |fit| && fit[i] == c;
          assert fit[1..][i - 1] == c;
        }
      }
    }
  }

  /** Main: in every run, a step dials only a peripheral that fits, and adds to the held candidates
      only one that fits. */
  lemma OnlyFitting(max: nat, now: nat, centralOn: bool, online: bool, events: seq<Event>, e: Event)
    ensures var s, r := Run(max, Init(now, centralOn, online), events), Step(max, Run(max, Init(now, centralOn, online), events), e);
            && (r.connects != s.connects ==>
                  |r.connects| == |s.connects| + 1 && r.connects == s.connects + [r.connects[|s.connects|]]
                  && Fitting(max, s, r.connects[|s.connects|].found.id) && s.now - s.lastDial >= 500)
            && (forall c | c in r.candidates && c !in s.candidates :: Fitting(max, s, c.id))
  {
    RunBook(max, now, centralOn, online, events);
    RunPaced(max, now, centralOn, online, events);
    StepFitting(max, Run(max, Init(now, centralOn, online), events), e);
  }

  lemma StepFitting(max: nat, s: State, e: Event)
    requires Book(s) && Memory(s)
    ensures var r := Step(max, s, e);
            && (r.connects != s.connects ==>
                  |r.connects| == |s.connects| + 1 && r.connects == s.connects + [r.connects[|s.connects|]]
                  && Fitting(max, s, r.connects[|s.connects|].found.id) && s.now - s.lastDial >= 500)
            && (forall c | c in r.candidates && c !in s.candidates :: Fitting(max, s, c.id))
  {
    if e.Discover? {
      DiscoverActs(max, s, e.found, e.throws);
    } else if e.FlushFires? {
      if Enabled(s, e) { FlushFits(max, s, e.throws); }
    } else {
      OthersSpare(max, s, e);
    }
  }

  // ─── records ────────────────────────────────────────────────────────────

  /** The other records are as they were. */
  ghost predicate OthersKept(s: State, r: State, id: nat) {
    forall i | i != id :: (i in r.devices <==> i in s.devices) && (i in s.devices ==> r.devices[i] == s.devices[i])
  }

  /** The scan is on wherever it may be. */
  predicate Resumed(s: State, r: State) {
    r.phase == s.phase && r.closing == s.closing && r.centralOn == s.centralOn
    && (s.phase.Running? && !s.closing && s.centralOn ==> r.scanning)
  }

  lemma ClearDialDoes(s: State, id: nat)
    requires id in s.devices && s.devices[id].(timer := None) != BLANK
    ensures var r := ClearDial(s, id);
            && id in r.devices && r.devices[id] == s.devices[id].(timer := None) && OthersKept(s, r, id)
            && r.timers == Without(s.timers, s.devices[id].timer)
  {}

  lemma StartScanDoes(s: State)
    ensures Resumed(s, StartScan(s)) && StartScan(s).devices == s.devices
  {}

  lemma ArmScanDoes(s: State)
    ensures var r := ArmScanRestart(s);
            && r.scanTimer == Some(s.next) && r.scanning == s.scanning && r.peers == s.peers && r.devices == s.devices
            && r.huntUntil == s.huntUntil && r.candidates == s.candidates && r.online == s.online
  {}

  lemma StartScanKeeps(s: State)
    ensures var r := StartScan(s);
            r.peers == s.peers && r.huntUntil == s.huntUntil && r.candidates == s.candidates && r.online == s.online
    ensures s.phase.Running? && !s.closing && !s.scanning && s.centralOn ==> StartScan(s).scanTimer == Some(s.next)
  {}

  /** Clearing a dial takes the timer off the record, which goes if it then says nothing. */
  lemma ClearDialLeaves(s: State, id: nat)
    ensures var r := ClearDial(s, id);
            OthersKept(s, r, id) && DeviceOf(r, id) == DeviceOf(s, id).(timer := None) && Same(s, r)
  {
    if id in s.devices {
      UnhandleLeaves(s, id);
      PruneLeaves(Unhandle(s, id), id);
    }
  }

  lemma UnhandleLeaves(s: State, id: nat)
    requires id in s.devices
    ensures var r := Unhandle(s, id);
            OthersKept(s, r, id) && DeviceOf(r, id) == s.devices[id].(timer := None) && Same(s, r)
  {}

  lemma PruneLeaves(s: State, id: nat)
    ensures var r := Prune(s, id);
            OthersKept(s, r, id) && DeviceOf(r, id) == DeviceOf(s, id) && Same(s, r)
  {
    if id in s.devices && s.devices[id] == BLANK {
      assert Prune(s, id) == s.(devices := s.devices - {id});
    } else {
      assert Prune(s, id) == s;
    }
  }

  /** Neither phase nor radio changed. */
  predicate Same(s: State, r: State) {
    r.phase == s.phase && r.closing == s.closing && r.centralOn == s.centralOn && r.scanning == s.scanning
  }

  lemma LinkDoes(s: State, id: nat)
    ensures var r := Link(s, id);
            && OthersKept(s, r, id) && Same(s, r) && id in r.devices
            && r.devices[id] == DeviceOf(s, id).(linked := true, coolUntil := 0, failures := 0)
  {}

  /** An abort: one more failure, a cooldown from now, nobody holding the peripheral, no dial timer;
      the rest of the record and all other records stay, and the scan resumes. */
  lemma AbortDoes(max: nat, s: State, id: nat)
    requires s.now >= 0
    ensures var r, d := Step(max, s, DialAborts(id)), DeviceOf(s, id);
            var base := if s.peers == {} then 2000 else 8000;
            && id in r.devices && OthersKept(s, r, id) && Resumed(s, r)
            && r.devices[id] == Device(None, d.linked, s.now + Cooldown(base, d.failures + 1), d.failures + 1, d.peerKey, false)
  {
    ClearDialDoes(Fail(s, id), id);
    StartScanDoes(ClearDial(Fail(s, id), id));
  }

  /** The end of a session before its link: thirty seconds, the peripheral kept or released, no dial
      timer; the rest of the record and all other records stay, and the scan resumes. */
  lemma EndDoes(max: nat, s: State, id: nat, keep: bool)
    requires s.now >= 0
    ensures var r, d := Step(max, s, CentralEnds(id, keep)), DeviceOf(s, id);
            && id in r.devices && OthersKept(s, r, id) && Resumed(s, r)
            && r.devices[id] == Device(None, d.linked, s.now + 30000, d.failures, d.peerKey, keep)
  {
    ClearDialDoes(Cool(s, id, keep), id);
    StartScanDoes(ClearDial(Cool(s, id, keep), id));
  }

  /** The same for a peer already linked, whose key is noted on the record; its link is kept up. */
  lemma AlreadyLinkedDoes(max: nat, s: State, id: nat, key: Key)
    requires s.now >= 0
    ensures var r, d := Step(max, s, AlreadyLinked(id, key)), DeviceOf(s, id);
            && id in r.devices && OthersKept(s, r, id) && Resumed(s, r)
            && r.devices[id] == Device(None, d.linked, s.now + 30000, d.failures, Some(key), true)
  {
    EndDoes(max, SetPeer(s, id, key), id, true);
  }

  /** A bound stream: linked, with cooldown and failures forgotten, unless the node is halted. */
  lemma BindDoes(max: nat, s: State, id: nat)
    ensures var r, d := Step(max, s, CentralBinds(id)), DeviceOf(s, id);
            && OthersKept(s, r, id) && Resumed(s, r)
            && DeviceOf(r, id) == if s.phase.Running? && !s.closing then Device(None, true, 0, 0, d.peerKey, d.held) else d.(timer := None)
  {
    ClearDialLeaves(s, id);
    LinkDoes(ClearDial(s, id), id);
    StartScanDoes(Link(ClearDial(s, id), id));
    assert Step(max, s, CentralBinds(id)) == BindCentral(s, id);
  }

  /** A dial stops the scan and arms the device's dial timer; one that fails at once is an abort. */
  lemma DialDoes(max: nat, s: State, f: Found, throws: bool)
    requires Fitting(max, s, f.id) && s.now - s.lastDial >= 500 && s.now >= 0
    ensures var r, d := Step(max, s, Discover(f, throws)), DeviceOf(s, f.id);
            var base := if s.peers == {} then 2000 else 8000;
            && f.id in r.devices && OthersKept(s, r, f.id)
            && if throws then
                 Resumed(s, r) && r.devices[f.id] == Device(None, d.linked, s.now + Cooldown(base, d.failures + 1), d.failures + 1, d.peerKey, false)
               else
                 && !r.scanning && r.devices[f.id] == d.(timer := Some(s.next))
                 && r.timers == s.timers[s.next := DialTimeout(f.id)] && r.next == s.next + 1
  {
    EligibleIsFitting(max, s, f.id);
    assert Step(max, s, Discover(f, throws)) == Dial(s, f, throws);
    DialledDoes(s, f);
    if throws {
      AbortDoes(max, Dialled(s, f), f.id);
    }
  }

  lemma DialledDoes(s: State, f: Found)
    ensures var q := Dialled(s, f);
            && q.devices == s.devices[f.id := DeviceOf(s, f.id).(timer := Some(s.next))] && q.now == s.now && q.peers == s.peers
            && q.phase == s.phase && q.closing == s.closing && q.centralOn == s.centralOn && !q.scanning
            && q.timers == s.timers[s.next := DialTimeout(f.id)] && q.next == s.next + 1
  {}

  /** Binding a server's stream resumes the scan. */
  lemma ServerBindsDoes(max: nat, s: State)
    ensures Resumed(s, Step(max, s, ServerBinds)) && Step(max, s, ServerBinds).devices == s.devices
  {
    StartScanDoes(s);
    assert Step(max, s, ServerBinds) == StartScan(s);
  }

  /** Time passes, the central's radio goes off and a close begins without any other effect. */
  lemma PlainEvents(max: nat, s: State, elapsed: nat)
    ensures Step(max, s, Tick(elapsed)) == s.(now := s.now + elapsed)
    ensures Step(max, s, NotPoweredOn) == s.(centralOn := false)
    ensures Step(max, s, CloseBegins) == s.(closing := true)
  {}

  /** The end of a close leaves no timer, record, candidate or link. */
  lemma CloseEndsDoes(max: nat, s: State)
    requires Book(s)
    ensures var r := Step(max, s, CloseEnds);
            && r.closing && r.timers == map[] && r.devices == map[] && r.candidates == [] && r.peers == {}
            && r.dialTimer.None? && r.scanTimer.None?
  {
    CloseBook(s);
    var r := DropTable(ClearDeviceTimers(StopScanTimer(s)));
    Nobodys(r.timers, r.next, r.devices);
  }

  /** One record is not linked any more, and gone if it then says nothing. */
  ghost predicate Unlinked(s: State, r: State, id: nat) {
    var d := DeviceOf(s, id).(linked := false);
    && OthersKept(s, r, id) && r == s.(devices := r.devices)
    && (id in r.devices <==> id in s.devices && d != BLANK) && (id in r.devices ==> r.devices[id] == d)
  }

  /** A closed connection does that to its device's record, and nothing else. */
  lemma CloseDoes(max: nat, s: State, id: nat)
    ensures Unlinked(s, Step(max, s, ChannelCloses(id)), id)
  {
    CloseChannelDoes(s, id);
    assert Step(max, s, ChannelCloses(id)) == CloseChannel(s, id);
  }

  lemma CloseChannelDoes(s: State, id: nat)
    ensures Unlinked(s, CloseChannel(s, id), id)
  {
    if id in s.devices {
      PruneDoes(Put(s, id, s.devices[id].(linked := false)), id);
    }
  }

  lemma PruneDoes(s: State, id: nat)
    ensures var r := Prune(s, id);
            && r == s.(devices := r.devices) && OthersKept(s, r, id)
            && (id in r.devices <==> id in s.devices && s.devices[id] != BLANK) && (id in r.devices ==> r.devices[id] == s.devices[id])
  {
    if id in s.devices && s.devices[id] == BLANK {
      assert Prune(s, id) == s.(devices := s.devices - {id});
    } else {
      assert Prune(s, id) == s;
    }
  }

  /** Who holds the peripheral, and whose key it has. */
  lemma HoldingDoes(max: nat, s: State, id: nat)
    ensures Step(max, s, Connected(id)) == s.(devices := s.devices[id := DeviceOf(s, id).(held := true)])
    ensures Step(max, s, StreamCloses(id)) == if id in s.devices then s.(devices := s.devices[id := s.devices[id].(held := false)]) else s
  {}

  lemma TrackDoes(max: nat, s: State, id: Option<nat>, key: Key, kept: bool)
    ensures var r := Step(max, s, Tracked(id, key, kept));
            && r.peers == s.peers + (if kept && !s.closing then {key} else {})
            && r == s.(peers := r.peers, devices := r.devices)
            && r.devices == if id.Some? then s.devices[id.value := DeviceOf(s, id.value).(peerKey := Some(key))] else s.devices
  {
    assert Step(max, s, Tracked(id, key, kept)) == OnTracked(s, id, key, kept);
    assert s.peers + {} == s.peers;
  }

  /** A failed connection, as some radios report it: every dial in flight is forgotten, and the record
      with it if it then says nothing; no failure is counted. */
  lemma CentralErrorDoes(max: nat, s: State)
    ensures var r := Step(max, s, CentralError);
            && r == s.(devices := r.devices, timers := r.timers)
            && (forall id | id in r.devices :: id in s.devices && r.devices[id] == s.devices[id].(timer := None))
            && (forall id | id in s.devices :: id in r.devices <==> s.devices[id].timer.None? || s.devices[id].(timer := None) != BLANK)
  {}

  // ─── radio and lifecycle ────────────────────────────────────────────────

  /** Losing the radio forgets every record, candidate and dial, and waits for a rebuild; the links
      are destroyed elsewhere, and their keys stay until they close. */
  lemma RadioDownDoes(max: nat, s: State)
    requires Book(s)
    ensures var r := Step(max, s, RadioDown);
            && r.devices == map[] && r.candidates == [] && r.dialTimer.None? && !r.scanning && r.radioWasDown && r.radioCycled
            && (forall t | t in r.timers :: r.timers[t].ScanTick?) && r.peers == s.peers && r.scanTimer == s.scanTimer
  {
    RadioBook(s);
    OnlyScans(OnRadioDown(s));
  }

  lemma OnlyScans(s: State)
    requires Balanced(s.timers, s.next, s.devices, s.dialTimer, s.scanTimer) && NoDials(s)
    ensures forall t | t in s.timers :: s.timers[t].ScanTick?
  {
    forall t | t in s.timers
      ensures s.timers[t].ScanTick?
    {
      assert Owned(s.timers, t, s.devices, s.dialTimer, s.scanTimer);
    }
  }

  /** The central back on: a radio that never went down scans, one that did asks once for a rebuild. */
  lemma PoweredOnDoes(max: nat, s: State)
    ensures var r := Step(max, s, PoweredOn);
            && r.centralOn
            && (!s.radioWasDown && s.phase.Running? && !s.closing ==> r.scanning && r.healing == s.healing)
            && (s.radioWasDown ==> r.scanning == s.scanning && r.timers == s.timers)
            && (s.radioWasDown && !s.healing && s.phase.Running? && !s.closing ==> r.healing && !r.radioWasDown)
            && (s.radioWasDown && (s.healing || !s.phase.Running? || s.closing) ==> r.healing == s.healing && r.radioWasDown)
  {}

  /** As a suspend begins no timer is left but those of other devices' nothing: none at all; records,
      links and the scan itself wait for its end. */
  lemma SuspendBeginsDoes(max: nat, s: State)
    requires Book(s)
    ensures var r := Step(max, s, SuspendBegins);
            && r.phase.Draining? && r.timers == map[] && r.candidates == [] && r.dialTimer.None? && r.scanTimer.None?
            && r.peers == s.peers && r.scanning == s.scanning && r.devices.Keys == s.devices.Keys
            && (forall id | id in s.devices :: r.devices[id] == s.devices[id].(timer := None))
  {
    SuspendBook(s);
    var r := OnSuspend(s);
    Nobodys(r.timers, r.next, r.devices);
  }

  /** A timer that no handle names is not armed. */
  lemma Nobodys(timers: Timers, next: nat, devices: Devices)
    requires Balanced(timers, next, devices, None, None) && forall id | id in devices :: devices[id].timer.None?
    ensures timers == map[]
  {
    assert forall t | t in timers :: Owned(timers, t, devices, None, None);
  }

  lemma SuspendEndsDoes(max: nat, s: State)
    requires !s.phase.Running?
    ensures var r := Step(max, s, SuspendEnds);
            r.phase.Parked? && r.devices == map[] && r.peers == {} && !r.scanning && r.timers == s.timers
  {}

  /** A change of the online flag starts a scan that is off and re-times one that is on. */
  lemma SetOnlineDoes(max: nat, s: State, online: bool)
    ensures var r := Step(max, s, SetOnline(online));
            && r.online == online && r.devices == s.devices && r.candidates == s.candidates
            && (online == s.online || !s.phase.Running? || s.closing ==> r.timers == s.timers && r.scanning == s.scanning)
            && (online != s.online && s.phase.Running? && !s.closing && s.centralOn ==> r.scanning && r.scanTimer == Some(s.next))
  {
    var q := s.(online := online);
    ArmScanDoes(q);
    StartScanDoes(q);
    StartScanKeeps(q);
    assert Step(max, s, SetOnline(online)) == OnSetOnline(s, online);
  }

  /** A scan timer that fires on a halted node is not armed again. */
  lemma HaltedTick(max: nat, s: State)
    requires s.scanTimer.Some? && (!s.phase.Running? || s.closing)
    ensures Step(max, s, ScanTicks) == s.(timers := s.timers - {s.scanTimer.value}, scanTimer := None)
  {}

  /** A resume opens the hunt window and the scan, unless closing, and restores nothing else. */
  lemma ResumeDoes(max: nat, s: State)
    requires s.phase.Parked?
    ensures var r := Step(max, s, Resume);
            && r.phase.Running? && r.devices == s.devices && r.peers == s.peers
            && if s.closing then r == s.(phase := Running)
               else r.huntUntil == s.now + 60000 && (s.centralOn ==> r.scanning)
  {
    var q := Hunt(s.(phase := Running));
    StartScanDoes(q);
    StartScanKeeps(q);
    assert Step(max, s, Resume) == if s.closing then s.(phase := Running) else StartScan(q);
  }

  /** A link's entry is gone, and with the last one the hunt window opens and the scan is re-timed. */
  ghost predicate LinkGone(s: State, r: State, entry: Option<Key>) {
    && r.peers == s.peers - (if entry.Some? then {entry.value} else {}) && r.devices == s.devices
    && (if r.peers == {} && s.phase.Running? && !s.closing then
          r.huntUntil == s.now + 60000 && r.scanTimer.Some? && (s.centralOn ==> r.scanning)
        else r == s.(peers := r.peers))
  }

  lemma UntrackDoes(max: nat, s: State, entry: Option<Key>)
    ensures LinkGone(s, Step(max, s, Untracked(entry)), entry)
  {
    UntrackedDoes(s, entry);
    assert Step(max, s, Untracked(entry)) == OnUntracked(s, entry);
  }

  lemma UntrackedDoes(s: State, entry: Option<Key>)
    ensures LinkGone(s, OnUntracked(s, entry), entry)
  {
    var q := Left(s, entry);
    if q.peers == {} && !Halted(q) {
      assert OnUntracked(s, entry) == ArmScanRestart(StartScan(Hunt(q)));
      HuntDoes(q);
    } else {
      assert OnUntracked(s, entry) == q;
    }
  }

  function Left(s: State, entry: Option<Key>): (q: State)
    ensures q.peers == s.peers - if entry.Some? then {entry.value} else {}
  {
    if entry.Some? then s.(peers := s.peers - {entry.value}) else s
  }

  lemma HuntDoes(s: State)
    ensures var r := ArmScanRestart(StartScan(Hunt(s)));
            && r.peers == s.peers && r.devices == s.devices && r.huntUntil == s.now + 60000 && r.scanTimer.Some?
            && (s.phase.Running? && !s.closing && s.centralOn ==> r.scanning)
  {
    StartScanDoes(Hunt(s));
    StartScanKeeps(Hunt(s));
    ArmScanDoes(StartScan(Hunt(s)));
  }
}
