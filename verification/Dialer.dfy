/** The central side's scheduler in lib/transport.js: whom to dial and when, how long to leave a
    peer alone after a failure, and the scan cycle. One clock reading per handler. */
module Dialer {
  import opened Options
  import opened Bytes

  const DIAL_COOLDOWN_BASE := 8000
  const DIAL_COOLDOWN_BASE_LONELY := 2000
  const DIAL_COOLDOWN_MAX := 30000
  const DIAL_MIN_INTERVAL := 500
  const SCAN_RESTART_LONELY := 5000
  const SCAN_DUTY_ON := 5000
  const SCAN_DUTY_OFF := 25000
  const SCAN_DUTY_OFF_ONLINE := 55000
  const HUNT_WINDOW := 60000
  const NO_RSSI := -100

  /** A discovery: the peripheral's id and its signal, when the radio reports one. */
  datatype Found = Found(id: nat, rssi: Option<int>)

  datatype Device = Device(
    timer: Option<nat>,
    linked: bool,
    coolUntil: int,
    failures: nat,
    peerKey: Option<Key>,
    held: bool)

  const BLANK := Device(None, false, 0, 0, None, false)

  datatype Timer = DialTimeout(id: nat) | Flush(due: int) | ScanTick(delay: nat)

  /** The handle of the flush timer, with the time it is due. */
  datatype Alarm = Alarm(handle: nat, due: int)

  datatype Connect = Connect(found: Found, at: int)

  datatype Phase = Running | Draining | Parked

  /** `timers`: what is armed at the event loop. `connects`: history of central.connect calls.
      `written`: history of the last cooldown written to a device that was aborted and has
      neither linked nor been cleared since. `peers`: the keys of the live links. */
  datatype State = State(
    now: int,
    lastDial: int,
    devices: map<nat, Device>,
    candidates: seq<Found>,
    dialTimer: Option<Alarm>,
    scanTimer: Option<nat>,
    scanning: bool,
    huntUntil: int,
    online: bool,
    peers: set<Key>,
    phase: Phase,
    closing: bool,
    centralOn: bool,
    radioWasDown: bool,
    healing: bool,
    radioCycled: bool,
    timers: map<nat, Timer>,
    next: nat,
    connects: seq<Connect>,
    written: map<nat, int>)

  datatype Event =
    | Tick(elapsed: nat)
    | Discover(found: Found, throws: bool)
    | FlushFires(throws: bool)
    | DialTimesOut(timer: nat)
    | DialAborts(id: nat)
    | CentralEnds(id: nat, keep: bool)
    | AlreadyLinked(id: nat, key: Key)
    | Connected(id: nat)
    | CentralBinds(id: nat)
    | ServerBinds
    | ChannelCloses(id: nat)
    | StreamCloses(id: nat)
    | Tracked(device: Option<nat>, key: Key, kept: bool)
    | Untracked(entry: Option<Key>)
    | CentralError
    | ScanTicks
    | SetOnline(online: bool)
    | PoweredOn
    | NotPoweredOn
    | RadioDown
    | SuspendBegins
    | SuspendEnds
    | Resume
    | CloseBegins
    | CloseEnds

  function Init(now: int, centralOn: bool, online: bool): State {
    StartScan(State(now, 0, map[], [], None, None, false, 0, online, {}, Running, false, centralOn,
                    false, false, false, map[], 0, [], map[]))
  }

  predicate Halted(s: State) {
    !s.phase.Running? || s.closing
  }

  /** What no dial or scan handler touches. */
  predicate Steady(s: State, r: State) {
    && r.phase == s.phase && r.closing == s.closing && r.peers == s.peers && r.now == s.now
    && r.centralOn == s.centralOn && r.radioCycled == s.radioCycled && r.online == s.online
  }

  /** What scanning leaves alone besides. */
  predicate Still(s: State, r: State) {
    r.phase == s.phase && r.closing == s.closing && r.dialTimer == s.dialTimer
  }

  // ─── device records ─────────────────────────────────────────────────────

  function DeviceOf(s: State, id: nat): Device {
    if id in s.devices then s.devices[id] else BLANK
  }

  function Put(s: State, id: nat, d: Device): (r: State)
    ensures Steady(s, r)
  {
    s.(devices := s.devices[id := d])
  }

  /** Forget a record that says nothing. */
  function Prune(s: State, id: nat): (r: State)
    ensures Steady(s, r)
  {
    if id in s.devices && s.devices[id] == BLANK then s.(devices := s.devices - {id}) else s
  }

  function Disarm(s: State, timer: Option<nat>): (r: State)
    ensures Steady(s, r)
  {
    s.(timers := Without(s.timers, timer))
  }

  function Without(timers: map<nat, Timer>, timer: Option<nat>): map<nat, Timer> {
    if timer.None? then timers else timers - {timer.value}
  }

  function ClearDial(s: State, id: nat): (r: State)
    ensures Steady(s, r)
  {
    if id in s.devices then Prune(Unhandle(s, id), id) else s
  }

  function Unhandle(s: State, id: nat): (r: State)
    requires id in s.devices
    ensures Steady(s, r)
  {
    Put(Disarm(s, s.devices[id].timer), id, s.devices[id].(timer := None))
  }

  /** The dial timers the records hold. */
  function Handles(devices: map<nat, Device>): set<nat> {
    set id | id in devices && devices[id].timer.Some? :: devices[id].timer.value
  }

  function DisarmDials(s: State): (r: State)
    ensures Steady(s, r)
  {
    s.(timers := s.timers - Handles(s.devices), devices := map id | id in s.devices :: s.devices[id].(timer := None))
  }

  /** Let go of the held candidates and of the flush timer that waits for them. */
  function TakeCandidates(s: State): (r: State)
    ensures Steady(s, r)
  {
    Disarm(s, Handle(s.dialTimer)).(dialTimer := None, candidates := [])
  }

  function Handle(alarm: Option<Alarm>): Option<nat> {
    if alarm.None? then None else Some(alarm.value.handle)
  }

  /** _clearDeviceTimers */
  function ClearDeviceTimers(s: State): (r: State)
    ensures Steady(s, r)
  {
    TakeCandidates(DisarmDials(s))
  }

  /** _onCentralError on a failed connection: every pending dial is forgotten. */
  function ClearDials(s: State): (r: State)
    ensures Steady(s, r)
  {
    s.(timers := s.timers - Handles(s.devices),
       devices := map id | id in s.devices && (s.devices[id].timer.None? || s.devices[id].(timer := None) != BLANK)
                    :: s.devices[id].(timer := None))
  }

  predicate IsDialing(s: State) {
    exists id | id in s.devices :: s.devices[id].timer.Some?
  }

  /** What makes the server refuse a peer it would rather dial. */
  predicate Busy(s: State) {
    IsDialing(s) || s.candidates != []
  }

  // ─── scanning ───────────────────────────────────────────────────────────

  predicate Duty(s: State) {
    s.peers != {} || (s.online && !(s.now < s.huntUntil))
  }

  function ScanDelay(s: State): nat {
    if !Duty(s) then SCAN_RESTART_LONELY
    else if s.scanning then SCAN_DUTY_ON
    else if s.peers != {} then SCAN_DUTY_OFF
    else SCAN_DUTY_OFF_ONLINE
  }

  function ArmScanRestart(s: State): (r: State)
    ensures Steady(s, r) && Still(s, r)
  {
    var r := Disarm(s, s.scanTimer);
    r.(timers := r.timers[s.next := ScanTick(ScanDelay(s))], scanTimer := Some(s.next), next := s.next + 1)
  }

  function StartScan(s: State): (r: State)
    ensures Steady(s, r) && Still(s, r)
  {
    if Halted(s) || s.scanning || !s.centralOn then s else ArmScanRestart(s.(scanning := true))
  }

  function StopScan(s: State): (r: State)
    ensures Steady(s, r) && Still(s, r)
  {
    s.(scanning := false)
  }

  function StopScanTimer(s: State): (r: State)
    ensures Steady(s, r) && Still(s, r)
  {
    Disarm(s, s.scanTimer).(scanTimer := None)
  }

  function OnScanTick(s: State): (r: State)
    ensures Steady(s, r) && Still(s, r)
  {
    var r := StopScanTimer(s);
    if Halted(r) then r
    else if IsDialing(r) then ArmScanRestart(r)
    else if !Duty(r) then StartScan(StopScan(r))
    else if r.scanning then ArmScanRestart(StopScan(r))
    else StartScan(r)
  }

  // ─── dialling ───────────────────────────────────────────────────────────

  function Pow2(n: nat): nat {
    if n == 0 then 1 else 2 * Pow2(n - 1)
  }

  function MinInt(a: int, b: int): int {
    if a < b then a else b
  }

  /** The backoff after `failures` consecutive failures. */
  function Cooldown(base: nat, failures: nat): int
    requires failures > 0
  {
    MinInt(DIAL_COOLDOWN_MAX, base * Pow2(MinInt(4, failures - 1)))
  }

  function Base(s: State): nat {
    if s.peers == {} then DIAL_COOLDOWN_BASE_LONELY else DIAL_COOLDOWN_BASE
  }

  /** One more failure on the record, and a cooldown that grows with them. */
  function Fail(s: State, id: nat): (r: State)
    ensures Steady(s, r)
  {
    var d := DeviceOf(s, id);
    var cool := s.now + Cooldown(Base(s), d.failures + 1);
    s.(devices := s.devices[id := d.(failures := d.failures + 1, coolUntil := cool, held := false)],
       written := s.written[id := cool])
  }

  function AbortDial(s: State, id: nat): (r: State)
    ensures Steady(s, r)
  {
    StartScan(ClearDial(Fail(s, id), id))
  }

  /** The long cooldown of a session ended before its link. */
  function Cool(s: State, id: nat, keep: bool): (r: State)
    ensures Steady(s, r)
  {
    var cool := s.now + DIAL_COOLDOWN_MAX;
    s.(devices := s.devices[id := DeviceOf(s, id).(coolUntil := cool, held := keep)],
       written := if id in s.written then s.written[id := cool] else s.written)
  }

  function EndCentral(s: State, id: nat, keep: bool): (r: State)
    ensures Steady(s, r)
  {
    StartScan(ClearDial(Cool(s, id, keep), id))
  }

  /** The guards of _onDiscover that look at the device record. */
  predicate Skipped(s: State, id: nat) {
    id in s.devices &&
    var d := s.devices[id];
    d.linked || (d.peerKey.Some? && d.peerKey.value in s.peers) || d.coolUntil > s.now || d.timer.Some?
  }

  predicate Eligible(max: nat, s: State, id: nat) {
    !Halted(s) && !Skipped(s, id) && |s.peers| < max
  }

  predicate WindowOpen(s: State) {
    s.now - s.lastDial >= DIAL_MIN_INTERVAL
  }

  /** Map.set: a key already present keeps its place. */
  function SetCandidate(held: seq<Found>, f: Found): seq<Found> {
    if held == [] then [f]
    else if held[0].id == f.id then [f] + held[1..]
    else [held[0]] + SetCandidate(held[1..], f)
  }

  function Hold(s: State, f: Found): (r: State)
    ensures Steady(s, r)
  {
    ArmFlushTimer(s.(candidates := SetCandidate(s.candidates, f)))
  }

  function ArmFlushTimer(s: State): (r: State)
    ensures Steady(s, r)
  {
    if s.dialTimer.Some? then s
    else
      var due := s.lastDial + DIAL_MIN_INTERVAL;
      s.(timers := s.timers[s.next := Flush(due)], dialTimer := Some(Alarm(s.next, due)), next := s.next + 1)
  }

  /** The dial timer armed, the scan stopped, the peripheral handed to central.connect. */
  function Dialled(s: State, f: Found): (r: State)
    ensures Steady(s, r)
  {
    StopScan(ArmDial(s, f)).(lastDial := s.now, connects := s.connects + [Connect(f, s.now)])
  }

  function ArmDial(s: State, f: Found): (r: State)
    ensures Steady(s, r)
  {
    s.(devices := s.devices[f.id := DeviceOf(s, f.id).(timer := Some(s.next))],
       timers := s.timers[s.next := DialTimeout(f.id)],
       next := s.next + 1)
  }

  function Dial(s: State, f: Found, throws: bool): (r: State)
    ensures Steady(s, r)
  {
    if throws then AbortDial(Dialled(s, f), f.id) else Dialled(s, f)
  }

  function OnDiscover(max: nat, s: State, f: Found, throws: bool): (r: State)
    ensures Steady(s, r)
  {
    if !Eligible(max, s, f.id) then s
    else if !WindowOpen(s) then Hold(s, f)
    else Dial(s, f, throws)
  }

  // ─── the held candidates ────────────────────────────────────────────────

  function Rank(f: Found): int {
    if f.rssi.Some? then f.rssi.value else NO_RSSI
  }

  /** Array.sort with the source's comparator: strongest first, ties in insertion order. */
  function SortStrongest(held: seq<Found>): seq<Found> {
    if held == [] then []
    else InsertRanked(SortStrongest(held[..|held| - 1]), held[|held| - 1])
  }

  function InsertRanked(sorted: seq<Found>, f: Found): seq<Found> {
    if sorted == [] then [f]
    else if Rank(sorted[0]) >= Rank(f) then [sorted[0]] + InsertRanked(sorted[1..], f)
    else [f] + sorted
  }

  function DiscoverAll(max: nat, s: State, held: seq<Found>, throws: bool): (r: State)
    ensures Steady(s, r)
    decreases |held|
  {
    if held == [] then s else DiscoverAll(max, OnDiscover(max, s, held[0], throws), held[1..], throws)
  }

  function OnFlush(max: nat, s: State, throws: bool): (r: State)
    ensures Steady(s, r)
  {
    DiscoverAll(max, TakeCandidates(s), SortStrongest(s.candidates), throws)
  }

  // ─── links ──────────────────────────────────────────────────────────────

  function Link(s: State, id: nat): (r: State)
    ensures Steady(s, r)
  {
    s.(devices := s.devices[id := DeviceOf(s, id).(linked := true, coolUntil := 0, failures := 0)],
       written := s.written - {id})
  }

  /** _bindCentralStream and the _onChannel it calls. */
  function BindCentral(s: State, id: nat): (r: State)
    ensures Steady(s, r)
  {
    if Halted(s) then ClearDial(s, id) else StartScan(Link(ClearDial(s, id), id))
  }

  function CloseChannel(s: State, id: nat): (r: State)
    ensures Steady(s, r)
  {
    if id in s.devices then Prune(Put(s, id, s.devices[id].(linked := false)), id) else s
  }

  /** `kept`: the connection was kept by _track rather than destroyed as the duplicate. */
  function OnTracked(s: State, id: Option<nat>, key: Key, kept: bool): (q: State)
    ensures q.phase == s.phase && q.closing == s.closing && q.timers == s.timers && q.dialTimer == s.dialTimer
  {
    var r := if id.Some? then SetPeer(s, id.value, key) else s;
    if s.closing || !kept then r else r.(peers := r.peers + {key})
  }

  /** `entry`: the key of peers the closed connection held, if it still did. */
  function OnUntracked(s: State, entry: Option<Key>): (q: State)
    ensures Still(s, q)
  {
    var r := if entry.Some? then s.(peers := s.peers - {entry.value}) else s;
    if !Halted(r) && r.peers == {} then ArmScanRestart(StartScan(Hunt(r))) else r
  }

  function Hunt(s: State): (r: State)
    ensures Steady(s, r) && Still(s, r)
  {
    s.(huntUntil := s.now + HUNT_WINDOW)
  }

  // ─── steps ──────────────────────────────────────────────────────────────

  predicate Enabled(s: State, e: Event) {
    match e
    case FlushFires(_) => s.dialTimer.Some? && s.dialTimer.value.due <= s.now
    case DialTimesOut(timer) => timer in s.timers && s.timers[timer].DialTimeout?
    case ScanTicks => s.scanTimer.Some?
    case SuspendEnds => !s.phase.Running?
    // resume is entered only after suspend has completed
    case Resume => s.phase.Parked?
    case _ => true
  }

  function Apply(max: nat, s: State, e: Event): State
    requires Enabled(s, e)
  {
    if OfDialling(e) then ApplyDial(max, s, e)
    else if OfLinks(e) then ApplyLink(s, e)
    else if OfScanning(e) then ApplyScan(s, e)
    else ApplyLifecycle(s, e)
  }

  predicate OfDialling(e: Event) {
    e.Discover? || e.FlushFires? || e.DialTimesOut? || e.DialAborts? || e.CentralEnds? || e.AlreadyLinked? || e.CentralError?
  }

  predicate OfLinks(e: Event) {
    e.Connected? || e.CentralBinds? || e.ChannelCloses? || e.StreamCloses? || e.Tracked? || e.Untracked?
  }

  predicate OfScanning(e: Event) {
    e.ServerBinds? || e.ScanTicks? || e.SetOnline? || e.PoweredOn? || e.NotPoweredOn? || e.Tick?
  }

  function ApplyDial(max: nat, s: State, e: Event): (r: State)
    requires Enabled(s, e) && OfDialling(e)
    ensures Steady(s, r)
  {
    match e
    case Discover(found, throws) => OnDiscover(max, s, found, throws)
    case FlushFires(throws) => OnFlush(max, s, throws)
    case DialTimesOut(timer) => AbortDial(s.(timers := s.timers - {timer}), s.timers[timer].id)
    case DialAborts(id) => AbortDial(s, id)
    case CentralEnds(id, keep) => EndCentral(s, id, keep)
    case AlreadyLinked(id, key) => EndCentral(SetPeer(s, id, key), id, true)
    case CentralError => ClearDials(s)
  }

  function SetPeer(s: State, id: nat, key: Key): (r: State)
    ensures Steady(s, r)
  {
    Put(s, id, DeviceOf(s, id).(peerKey := Some(key)))
  }

  function ApplyLink(s: State, e: Event): (r: State)
    requires OfLinks(e)
    ensures r.phase == s.phase && r.closing == s.closing
  {
    match e
    case Connected(id) => Put(s, id, DeviceOf(s, id).(held := true))
    case CentralBinds(id) => BindCentral(s, id)
    case ChannelCloses(id) => CloseChannel(s, id)
    case StreamCloses(id) => if id in s.devices then Put(s, id, s.devices[id].(held := false)) else s
    case Tracked(id, key, kept) => OnTracked(s, id, key, kept)
    case Untracked(entry) => OnUntracked(s, entry)
  }

  function ApplyScan(s: State, e: Event): (r: State)
    requires OfScanning(e)
    ensures Still(s, r)
  {
    match e
    case ServerBinds => StartScan(s)
    case ScanTicks => if s.scanTimer.Some? then OnScanTick(s) else s
    case SetOnline(online) => OnSetOnline(s, online)
    case PoweredOn => OnPoweredOn(s)
    case NotPoweredOn => s.(centralOn := false)
    case Tick(elapsed) => s.(now := s.now + elapsed)
  }

  function ApplyLifecycle(s: State, e: Event): State
    requires !OfDialling(e) && !OfLinks(e) && !OfScanning(e)
  {
    match e
    case RadioDown => OnRadioDown(s)
    case SuspendBegins => OnSuspend(s)
    case SuspendEnds => OnSuspended(s)
    case Resume => OnResume(s)
    case CloseBegins => s.(closing := true)
    case CloseEnds => DropTable(ClearDeviceTimers(StopScanTimer(s))).(peers := {}, closing := true)
  }

  function OnSetOnline(s: State, online: bool): (q: State)
    ensures Still(s, q)
  {
    if online == s.online then s
    else
      var r := s.(online := online);
      if Halted(r) then r else if !r.scanning then StartScan(r) else ArmScanRestart(r)
  }

  function OnPoweredOn(s: State): (q: State)
    ensures Still(s, q)
  {
    var r := s.(centralOn := true);
    if !r.radioWasDown then StartScan(r)
    else if r.healing || Halted(r) then r
    else r.(radioWasDown := false, healing := true)
  }

  function OnRadioDown(s: State): State {
    DropTable(ClearDeviceTimers(s)).(scanning := false, radioWasDown := true, radioCycled := true)
  }

  /** _devices.clear() */
  function DropTable(s: State): (r: State)
    ensures Steady(s, r)
  {
    s.(devices := map[], written := map[])
  }

  function OnSuspend(s: State): State {
    ClearDeviceTimers(StopScanTimer(s).(phase := Draining))
  }

  /** The rest of `suspend`, after its drain. */
  function OnSuspended(s: State): State {
    DropTable(StopScan(s)).(peers := {}, phase := Parked)
  }

  function OnResume(s: State): State {
    var r := s.(phase := Running);
    if s.closing then r else StartScan(Hunt(r))
  }

  function Step(max: nat, s: State, e: Event): State {
    if Enabled(s, e) then Apply(max, s, e) else s
  }

  function Run(max: nat, s: State, events: seq<Event>): State {
    if events == [] then s else Step(max, Run(max, s, events[..|events| - 1]), events[|events| - 1])
  }
}
