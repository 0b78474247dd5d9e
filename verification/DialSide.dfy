/** The central side as the source writes it: an object whose handlers update the device records,
    the held candidates, the timers and the scan flags in place. Each is proved against Dialer. */
module DialSide {
  import opened Options
  import opened Bytes
  import D = Dialer
  import T = DialTimers
  import Scan = DialScan

  class Scheduler {
    const maxOutbound: nat
    var now: int
    var lastDial: int
    var devices: map<nat, D.Device>
    var candidates: seq<D.Found>
    var dialTimer: Option<D.Alarm>
    var scanTimer: Option<nat>
    var scanning: bool
    var huntUntil: int
    var online: bool
    var peers: set<Key>
    var phase: D.Phase
    var closing: bool
    var centralOn: bool
    var radioWasDown: bool
    var healing: bool
    var radioCycled: bool
    var timers: map<nat, D.Timer>
    var next: nat
    ghost var connects: seq<D.Connect>
    ghost var written: map<nat, int>

    ghost function State(): D.State
      reads this
    {
      D.State(now, lastDial, devices, candidates, dialTimer, scanTimer, scanning, huntUntil, online, peers, phase, closing,
              centralOn, radioWasDown, healing, radioCycled, timers, next, connects, written)
    }

    constructor (maxOutbound: nat, now: nat, centralOn: bool, online: bool)
      ensures State() == D.Init(now, centralOn, online) && this.maxOutbound == maxOutbound && Reachable()
    {
      this.maxOutbound, this.now, this.centralOn, this.online := maxOutbound, now, centralOn, online;
      lastDial, huntUntil, next := 0, 0, 0;
      devices, candidates, timers, peers := map[], [], map[], {};
      dialTimer, scanTimer, scanning := None, None, false;
      phase, closing, radioWasDown, healing, radioCycled := D.Running, false, false, false, false;
      connects, written := [], map[];
      new;
      StartScan();
      assert State() == D.Run(maxOutbound, D.Init(now, centralOn, online), []);
    }

    /** The object is in a state some run of Dialer reaches. */
    ghost predicate Reachable()
      reads this
    {
      exists t: nat, on, online, events :: State() == D.Run(maxOutbound, D.Init(t, on, online), events)
    }

    /** Every event that can happen goes to its handler, and the object stays on a run. */
    method Handle(e: D.Event)
      requires Reachable() && D.Enabled(State(), e)
      modifies this
      ensures State() == D.Step(maxOutbound, old(State()), e) && Reachable()
    {
      ghost var t: nat, on, up, events :| State() == D.Run(maxOutbound, D.Init(t, on, up), events);
      T.RunBook(maxOutbound, t, on, up, events);
      assert (events + [e])[..|events|] == events;
      Dispatch(e);
      assert State() == D.Run(maxOutbound, D.Init(t, on, up), events + [e]);
    }

    method Dispatch(e: D.Event)
      requires T.Book(State()) && D.Enabled(State(), e)
      modifies this
      ensures State() == D.Apply(maxOutbound, old(State()), e)
    {
      if D.OfDialling(e) {
        DispatchDial(e);
      } else if D.OfLinks(e) {
        DispatchLink(e);
      } else if D.OfScanning(e) {
        DispatchScan(e);
      } else {
        DispatchLifecycle(e);
      }
    }

    method DispatchDial(e: D.Event)
      requires T.Book(State()) && D.Enabled(State(), e) && D.OfDialling(e)
      modifies this
      ensures State() == D.ApplyDial(maxOutbound, old(State()), e)
    {
      match e
      case Discover(found, throws) => OnDiscover(found, throws);
      case FlushFires(throws) => FlushCandidates(throws);
      case DialTimesOut(timer) => DialTimedOut(timer);
      case DialAborts(id) => AbortDial(id);
      case CentralEnds(id, keep) => EndCentral(id, keep);
      case AlreadyLinked(id, key) => RefuseLinked(id, key);
      case CentralError => OnCentralError();
    }

    method DispatchLink(e: D.Event)
      requires D.OfLinks(e)
      modifies this
      ensures State() == D.ApplyLink(old(State()), e)
    {
      match e
      case Connected(id) => SetRecord(id, DeviceOf(id).(held := true));
      case CentralBinds(id) => BindCentralStream(id);
      case ChannelCloses(id) => OnChannelClosed(id);
      case StreamCloses(id) => if id in devices { SetRecord(id, devices[id].(held := false)); }
      case Tracked(id, key, kept) => Track(id, key, kept);
      case Untracked(entry) => Untrack(entry);
    }

    method DispatchScan(e: D.Event)
      requires D.Enabled(State(), e) && D.OfScanning(e)
      modifies this
      ensures State() == D.ApplyScan(old(State()), e)
    {
      match e
      case ServerBinds => StartScan();
      case ScanTicks => OnScanTick();
      case SetOnline(online) => SetOnline(online);
      case PoweredOn => OnPoweredOn();
      case NotPoweredOn => centralOn := false;
      case Tick(elapsed) => now := now + elapsed;
    }

    method DispatchLifecycle(e: D.Event)
      requires D.Enabled(State(), e) && !D.OfDialling(e) && !D.OfLinks(e) && !D.OfScanning(e)
      modifies this
      ensures State() == D.ApplyLifecycle(old(State()), e)
    {
      match e
      case RadioDown => OnRadioDown();
      case SuspendBegins => BeginSuspend();
      case SuspendEnds => EndSuspend();
      case Resume => Resume();
      case CloseBegins => closing := true;
      case CloseEnds => EndClose();
    }

    function DeviceOf(id: nat): D.Device
      reads this
    {
      if id in devices then devices[id] else D.BLANK
    }

    method SetRecord(id: nat, d: D.Device)
      modifies this`devices
      ensures State() == D.Put(old(State()), id, d)
    {
      devices := devices[id := d];
    }

    /** The callback of a dial timer. */
    method DialTimedOut(timer: nat)
      requires timer in timers && timers[timer].DialTimeout?
      modifies this
      ensures var s := old(State()); State() == D.AbortDial(s.(timers := s.timers - {timer}), s.timers[timer].id)
    {
      var id := timers[timer].id;
      timers := timers - {timer};
      AbortDial(id);
    }

    /** A HELLO from a peer already linked. */
    method RefuseLinked(id: nat, key: Key)
      modifies this
      ensures State() == D.EndCentral(D.SetPeer(old(State()), id, key), id, true)
    {
      SetRecord(id, DeviceOf(id).(peerKey := Some(key)));
      EndCentral(id, true);
    }

    /** _onCentralError on a failed connection. */
    method OnCentralError()
      modifies this`devices, this`timers
      ensures State() == D.ClearDials(old(State()))
    {
      ClearDialling();
      UndialAll(old(State()));
    }

    /** The loop over the records with a dial timer. */
    method ClearDialling()
      modifies this`devices, this`timers
      ensures devices == Undialled(old(devices), old(devices).Keys)
      ensures timers == old(timers) - Among(old(devices), old(devices).Keys)
    {
      ghost var records, armed := devices, timers;
      var todo := devices.Keys;
      while todo != {}
        invariant todo <= records.Keys
        invariant devices == Undialled(records, records.Keys - todo)
        invariant timers == armed - Among(records, records.Keys - todo)
        decreases |todo|
      {
        var id :| id in todo;
        ghost var gone := records.Keys - todo;
        UndialOne(records, gone, id);
        WithoutMore(armed, Among(records, gone), records[id].timer);
        assert records.Keys - (todo - {id}) == gone + {id};
        if devices[id].timer.Some? {
          ClearRecord(id);
        }
        todo := todo - {id};
      }
      assert records.Keys - {} == records.Keys;
    }

    method ClearRecord(id: nat)
      requires id in devices && devices[id].timer.Some?
      modifies this`devices, this`timers
      ensures timers == D.Without(old(timers), old(devices)[id].timer)
      ensures var d := old(devices)[id].(timer := None);
              devices == if d == D.BLANK then old(devices) - {id} else old(devices)[id := d]
    {
      ClearHandle(id);
      Prune(id);
    }

    /** These records' dials forgotten, and with them the records that then say nothing. */
    static ghost function Undialled(records: map<nat, D.Device>, ids: set<nat>): map<nat, D.Device> {
      map id | id in records && (id in ids && records[id].timer.Some? ==> records[id].(timer := None) != D.BLANK)
        :: if id in ids then records[id].(timer := None) else records[id]
    }

    static lemma UndialOne(records: map<nat, D.Device>, ids: set<nat>, id: nat)
      requires id in records && id !in ids
      ensures Among(records, ids + {id}) == Among(records, ids) + Named(records[id].timer)
      ensures var u, d := Undialled(records, ids), records[id].(timer := None);
              && id in u && u[id] == records[id]
              && Undialled(records, ids + {id}) == if records[id].timer.None? then u else if d == D.BLANK then u - {id} else u[id := d]
    {}

    static lemma UndialAll(s: D.State)
      ensures s.(devices := Undialled(s.devices, s.devices.Keys), timers := s.timers - Among(s.devices, s.devices.Keys)) == D.ClearDials(s)
    {
      AllDone(s);
    }

    /** The close handler of a central's connection. */
    method OnChannelClosed(id: nat)
      modifies this`devices
      ensures State() == D.CloseChannel(old(State()), id)
    {
      if id in devices {
        SetRecord(id, devices[id].(linked := false));
        Prune(id);
      }
    }

    /** The scheduling part of _track. */
    method Track(id: Option<nat>, key: Key, kept: bool)
      modifies this`devices, this`peers
      ensures State() == D.OnTracked(old(State()), id, key, kept)
    {
      if id.Some? {
        SetRecord(id.value, DeviceOf(id.value).(peerKey := Some(key)));
      }
      if !closing && kept {
        peers := peers + {key};
      }
    }

    /** The central's poweredOn: scan, or ask once for a rebuild after a power cycle. */
    method OnPoweredOn()
      modifies this`centralOn, this`radioWasDown, this`healing, this`scanning, this`timers, this`scanTimer, this`next
      ensures State() == D.OnPoweredOn(old(State()))
    {
      centralOn := true;
      if !radioWasDown {
        StartScan();
      } else if !healing && phase == D.Running && !closing {
        radioWasDown, healing := false, true;
      }
    }

    method OnRadioDown()
      modifies this
      ensures State() == D.OnRadioDown(old(State()))
    {
      ClearDeviceTimers();
      DropTable();
      assert State() == D.DropTable(D.ClearDeviceTimers(old(State())));
      scanning, radioWasDown, radioCycled := false, true, true;
    }

    /** _close. */
    method EndClose()
      modifies this
      ensures State() == D.ApplyLifecycle(old(State()), D.CloseEnds)
    {
      StopScanTimer();
      ClearDeviceTimers();
      DropTable();
      assert State() == D.DropTable(D.ClearDeviceTimers(D.StopScanTimer(old(State()))));
      peers, closing := {}, true;
    }

    /** What the books promise holds of the object itself. */
    lemma BooksHold()
      requires Reachable()
      ensures T.Book(State()) && D.Handles(devices) == set t | t in timers && timers[t].DialTimeout?
      ensures !D.Halted(State()) && centralOn && !radioCycled ==> scanTimer.Some?
    {
      var t: nat, on, up, events :| State() == D.Run(maxOutbound, D.Init(t, on, up), events);
      T.RunBook(maxOutbound, t, on, up, events);
      T.ArmedAreHeld(maxOutbound, t, on, up, events);
      Scan.RunScanOk(maxOutbound, t, on, up, events);
    }

    method Halted() returns (halted: bool)
      ensures halted == D.Halted(State())
    {
      halted := phase != D.Running || closing;
    }

    method ClearTimeout(timer: Option<nat>)
      modifies this`timers
      ensures State() == D.Disarm(old(State()), timer)
    {
      if timer.Some? {
        timers := timers - {timer.value};
      }
    }

    method SetTimeout(timer: D.Timer) returns (handle: nat)
      modifies this`timers, this`next
      ensures handle == old(next) && State() == old(State()).(timers := old(timers)[handle := timer], next := handle + 1)
    {
      handle := next;
      timers := timers[next := timer];
      next := next + 1;
    }

    // ─── device records ───────────────────────────────────────────────────

    method Prune(id: nat)
      modifies this`devices
      ensures State() == D.Prune(old(State()), id)
    {
      if id in devices {
        var d := devices[id];
        if d.timer.None? && !d.linked && d.coolUntil == 0 && d.failures == 0 && d.peerKey.None? && !d.held {
          devices := devices - {id};
        }
      }
    }

    method ClearDial(id: nat)
      modifies this`devices, this`timers
      ensures State() == D.ClearDial(old(State()), id)
    {
      if id !in devices {
        return;
      }
      ClearTimeout(devices[id].timer);
      devices := devices[id := devices[id].(timer := None)];
      Prune(id);
    }

    /** Every record's timer in turn, */
    method ClearDialTimers()
      modifies this`devices, this`timers
      ensures devices == Cleared(old(devices), old(devices).Keys)
      ensures timers == old(timers) - Among(old(devices), old(devices).Keys)
    {
      ghost var records, armed := devices, timers;
      var todo := devices.Keys;
      while todo != {}
        invariant todo <= records.Keys
        invariant devices == Cleared(records, records.Keys - todo)
        invariant timers == armed - Among(records, records.Keys - todo)
        decreases |todo|
      {
        var id :| id in todo;
        OneMore(records, records.Keys - todo, id);
        WithoutMore(armed, Among(records, records.Keys - todo), devices[id].timer);
        assert records.Keys - (todo - {id}) == records.Keys - todo + {id};
        ClearHandle(id);
        todo := todo - {id};
      }
      assert records.Keys - {} == records.Keys;
    }

    method ClearHandle(id: nat)
      requires id in devices
      modifies this`devices, this`timers
      ensures devices == old(devices)[id := old(devices)[id].(timer := None)]
      ensures timers == D.Without(old(timers), old(devices)[id].timer)
    {
      if devices[id].timer.Some? {
        timers := timers - {devices[id].timer.value};
      }
      devices := devices[id := devices[id].(timer := None)];
    }

    method DropCandidates()
      modifies this`timers, this`dialTimer, this`candidates
      ensures State() == D.TakeCandidates(old(State()))
    {
      ClearTimeout(D.Handle(dialTimer));
      dialTimer, candidates := None, [];
    }

    /** then the flush timer and the candidates. */
    method ClearDeviceTimers()
      modifies this`devices, this`timers, this`dialTimer, this`candidates
      ensures State() == D.ClearDeviceTimers(old(State()))
    {
      ClearDialTimers();
      AllDone(old(State()));
      assert State() == D.DisarmDials(old(State()));
      DropCandidates();
    }

    /** The timers of these records. */
    static ghost function Among(records: map<nat, D.Device>, ids: set<nat>): set<nat> {
      set id | id in ids && id in records && records[id].timer.Some? :: records[id].timer.value
    }

    /** These records' timers forgotten. */
    static ghost function Cleared(records: map<nat, D.Device>, ids: set<nat>): map<nat, D.Device> {
      map id | id in records :: if id in ids then records[id].(timer := None) else records[id]
    }

    static ghost function Named(timer: Option<nat>): set<nat> {
      if timer.Some? then {timer.value} else {}
    }

    static lemma WithoutMore(timers: map<nat, D.Timer>, gone: set<nat>, timer: Option<nat>)
      ensures D.Without(timers - gone, timer) == timers - (gone + Named(timer))
    {}

    static lemma OneMore(records: map<nat, D.Device>, ids: set<nat>, id: nat)
      requires id in records && id !in ids
      ensures Among(records, ids + {id}) == Among(records, ids) + Named(records[id].timer)
      ensures Cleared(records, ids + {id}) == Cleared(records, ids)[id := records[id].(timer := None)]
    {}

    static lemma AllDone(s: D.State)
      ensures Among(s.devices, s.devices.Keys) == D.Handles(s.devices)
      ensures Cleared(s.devices, s.devices.Keys) == D.DisarmDials(s).devices
    {}

    // ─── scanning ─────────────────────────────────────────────────────────

    method ArmScanRestart()
      modifies this`timers, this`scanTimer, this`next
      ensures State() == D.ArmScanRestart(old(State()))
    {
      ClearTimeout(scanTimer);
      assert State() == D.Disarm(old(State()), old(scanTimer));
      var delay := ScanDelay();
      var handle := SetTimeout(D.ScanTick(delay));
      scanTimer := Some(handle);
    }

    method ScanDelay() returns (delay: nat)
      ensures delay == D.ScanDelay(State())
    {
      var hunting := peers == {} && now < huntUntil;
      var duty := peers != {} || (online && !hunting);
      var dark := if peers != {} then D.SCAN_DUTY_OFF else D.SCAN_DUTY_OFF_ONLINE;
      delay := if duty then (if scanning then D.SCAN_DUTY_ON else dark) else D.SCAN_RESTART_LONELY;
    }

    method StopScan()
      modifies this`scanning
      ensures State() == D.StopScan(old(State()))
    {
      scanning := false;
    }

    method StopScanTimer()
      modifies this`timers, this`scanTimer
      ensures State() == D.StopScanTimer(old(State()))
    {
      ClearTimeout(scanTimer);
      scanTimer := None;
    }

    method StartScan()
      modifies this`scanning, this`timers, this`scanTimer, this`next
      ensures State() == D.StartScan(old(State()))
    {
      if phase != D.Running || closing {
        return;
      }
      if scanning || !centralOn {
        return;
      }
      scanning := true;
      ArmScanRestart();
    }

    method IsDialing() returns (dialing: bool)
      ensures dialing <==> D.IsDialing(State())
    {
      var todo := devices.Keys;
      while todo != {}
        invariant todo <= devices.Keys
        invariant forall id | id in devices.Keys - todo :: devices[id].timer.None?
        decreases |todo|
      {
        var id :| id in todo;
        if devices[id].timer.Some? {
          return true;
        }
        todo := todo - {id};
      }
      return false;
    }

    method OnScanTick()
      requires scanTimer.Some?
      modifies this`scanning, this`timers, this`scanTimer, this`next
      ensures State() == D.OnScanTick(old(State()))
    {
      StopScanTimer();
      if phase != D.Running || closing {
        return;
      }
      var dialing := IsDialing();
      if dialing {
        ArmScanRestart();
        return;
      }
      var stillHunting := peers == {} && now < huntUntil;
      if peers != {} || (online && !stillHunting) {
        if scanning {
          StopScan();
          ArmScanRestart();
        } else {
          StartScan();
        }
      } else {
        StopScan();
        StartScan();
      }
    }

    method SetOnline(online: bool)
      modifies this`online, this`scanning, this`timers, this`scanTimer, this`next
      ensures State() == D.OnSetOnline(old(State()), online)
    {
      if online == this.online {
        return;
      }
      this.online := online;
      if phase != D.Running || closing {
        return;
      }
      if !scanning {
        StartScan();
      } else {
        ArmScanRestart();
      }
    }

    // ─── dialling ─────────────────────────────────────────────────────────

    method AbortDial(id: nat)
      modifies this`devices, this`written, this`scanning, this`timers, this`scanTimer, this`next
      ensures State() == D.AbortDial(old(State()), id)
    {
      var d := if id in devices then devices[id] else D.BLANK;
      var base := if peers == {} then D.DIAL_COOLDOWN_BASE_LONELY else D.DIAL_COOLDOWN_BASE;
      var cool := now + D.Cooldown(base, d.failures + 1);
      devices := devices[id := d.(failures := d.failures + 1, coolUntil := cool, held := false)];
      written := written[id := cool];
      assert State() == D.Fail(old(State()), id);
      ClearDial(id);
      StartScan();
    }

    method EndCentral(id: nat, keep: bool)
      modifies this`devices, this`written, this`scanning, this`timers, this`scanTimer, this`next
      ensures State() == D.EndCentral(old(State()), id, keep)
    {
      var d := if id in devices then devices[id] else D.BLANK;
      var cool := now + D.DIAL_COOLDOWN_MAX;
      devices := devices[id := d.(coolUntil := cool, held := keep)];
      if id in written {
        written := written[id := cool];
      }
      assert State() == D.Cool(old(State()), id, keep);
      ClearDial(id);
      StartScan();
    }

    method SetCandidate(f: D.Found)
      modifies this`candidates
      ensures candidates == D.SetCandidate(old(candidates), f)
    {
      var k := 0;
      while k < |candidates| && candidates[k].id != f.id
        invariant k <= |candidates| && candidates == old(candidates)
        invariant forall i | 0 <= i < k :: candidates[i].id != f.id
      {
        k := k + 1;
      }
      SetAt(candidates, f, k);
      candidates := if k < |candidates| then candidates[k := f] else candidates + [f];
    }

    static lemma {:induction false} SetAt(held: seq<D.Found>, f: D.Found, k: nat)
      requires k <= |held| && (forall i | 0 <= i < k :: held[i].id != f.id) && (k < |held| ==> held[k].id == f.id)
      ensures D.SetCandidate(held, f) == if k < |held| then held[k := f] else held + [f]
    {
      if 0 < k {
        SetAt(held[1..], f, k - 1);
        if k < |held| {
          assert held[k := f] == [held[0]] + held[1..][k - 1 := f];
        } else {
          assert held + [f] == [held[0]] + (held[1..] + [f]);
        }
      }
    }

    /** `throws`: central.connect fails at once. */
    method OnDiscover(f: D.Found, throws: bool)
      modifies this
      ensures State() == D.OnDiscover(maxOutbound, old(State()), f, throws)
    {
      if phase != D.Running || closing {
        return;
      }
      if f.id in devices {
        var d := devices[f.id];
        if d.linked || (d.peerKey.Some? && d.peerKey.value in peers) || d.coolUntil > now || d.timer.Some? {
          return;
        }
      }
      if |peers| >= maxOutbound {
        return;
      }
      var wait := D.DIAL_MIN_INTERVAL - (now - lastDial);
      if wait > 0 {
        HoldCandidate(f, wait);
      } else {
        Dial(f, throws);
      }
    }

    method HoldCandidate(f: D.Found, wait: int)
      requires wait == D.DIAL_MIN_INTERVAL - (now - lastDial)
      modifies this`candidates, this`timers, this`dialTimer, this`next
      ensures State() == D.Hold(old(State()), f)
    {
      SetCandidate(f);
      if dialTimer.None? {
        var due := now + wait;
        var handle := SetTimeout(D.Flush(due));
        dialTimer := Some(D.Alarm(handle, due));
      }
    }

    method ArmDial(f: D.Found)
      modifies this`devices, this`timers, this`next
      ensures State() == D.ArmDial(old(State()), f)
    {
      var timer := SetTimeout(D.DialTimeout(f.id));
      var d := if f.id in devices then devices[f.id] else D.BLANK;
      devices := devices[f.id := d.(timer := Some(timer))];
    }

    method StartDial(f: D.Found)
      modifies this`lastDial, this`devices, this`timers, this`next, this`scanning, this`connects
      ensures State() == D.Dialled(old(State()), f)
    {
      ArmDial(f);
      StopScan();
      lastDial := now;
      connects := connects + [D.Connect(f, now)];
    }

    method Dial(f: D.Found, throws: bool)
      modifies this
      ensures State() == D.Dial(old(State()), f, throws)
    {
      StartDial(f);
      if throws {
        AbortDial(f.id);
      }
    }

    /** The flush timer's handler. */
    method FlushCandidates(throws: bool)
      requires dialTimer.Some?
      modifies this
      ensures State() == D.OnFlush(maxOutbound, old(State()), throws)
    {
      timers := timers - {dialTimer.value.handle};
      dialTimer := None;
      var held := D.SortStrongest(candidates);
      candidates := [];
      ghost var taken := State();
      assert taken == D.TakeCandidates(old(State()));
      for k := 0 to |held|
        invariant D.DiscoverAll(maxOutbound, taken, held, throws) == D.DiscoverAll(maxOutbound, State(), held[k..], throws)
      {
        assert held[k..][0] == held[k] && held[k..][1..] == held[k + 1..];
        OnDiscover(held[k], throws);
      }
    }

    // ─── links ────────────────────────────────────────────────────────────

    method BindCentralStream(id: nat)
      modifies this`devices, this`written, this`scanning, this`timers, this`scanTimer, this`next
      ensures State() == D.BindCentral(old(State()), id)
    {
      ClearDial(id);
      if phase != D.Running || closing {
        return;
      }
      MarkLinked(id);
      StartScan();
    }

    method MarkLinked(id: nat)
      modifies this`devices, this`written
      ensures State() == D.Link(old(State()), id)
    {
      var d := if id in devices then devices[id] else D.BLANK;
      devices := devices[id := d.(linked := true, coolUntil := 0, failures := 0)];
      written := written - {id};
    }

    /** _untrack, with the entry of `peers` that the closed connection held. */
    method Untrack(entry: Option<Key>)
      modifies this`peers, this`huntUntil, this`scanning, this`timers, this`scanTimer, this`next
      ensures State() == D.OnUntracked(old(State()), entry)
    {
      if entry.Some? {
        peers := peers - {entry.value};
      }
      ghost var left := State();
      if phase == D.Running && !closing && peers == {} {
        huntUntil := now + D.HUNT_WINDOW;
        assert State() == D.Hunt(left);
        StartScan();
        ArmScanRestart();
      }
    }

    method BeginSuspend()
      modifies this`phase, this`scanTimer, this`devices, this`timers, this`dialTimer, this`candidates
      ensures State() == D.OnSuspend(old(State()))
    {
      phase := D.Draining;
      StopScanTimer();
      ClearDeviceTimers();
    }

    /** After the drain. */
    method EndSuspend()
      modifies this`phase, this`devices, this`written, this`scanning, this`peers
      ensures State() == D.OnSuspended(old(State()))
    {
      DropTable();
      StopScan();
      peers, phase := {}, D.Parked;
    }

    method DropTable()
      modifies this`devices, this`written
      ensures State() == D.DropTable(old(State()))
    {
      devices, written := map[], map[];
    }

    method Resume()
      modifies this`phase, this`huntUntil, this`scanning, this`timers, this`scanTimer, this`next
      ensures State() == D.OnResume(old(State()))
    {
      phase := D.Running;
      if closing {
        return;
      }
      huntUntil := now + D.HUNT_WINDOW;
      StartScan();
    }
  }
}
