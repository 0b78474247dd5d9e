# ble-swarm control plane, verified

ble-swarm links nearby devices over Bluetooth Low Energy. Every node is at once a server
(peripheral) and a central. Centrals send OPEN, servers answer HELLO or CLOSE, a session is bound to
a data pipe (frames over one GATT characteristic, or an L2CAP channel), each link is wrapped in a
Noise stream, and the duplicate of a pair that linked twice is retired. Nearly all of it is
event-driven state with timers, so this project models it as state machines and proves claims over
every run and every interleaving of their events.

How the modules fit together:

- `Bytes`, `Frames`, `Preamble`: keys and their order, the wire codec, the channel preamble.
- `GattStream`, `Carrier`, `Gatt`, `WriteChain`, `Pipe`, `PipeEnds`: the GATT byte pipe. `Carrier` is
  a FIFO of promises; the notify queue is one by construction and the write chain is proved to refine
  it; `Pipe` shows that many sessions over one such FIFO behave like independent byte streams;
  `PipeEnds` puts the real queue and the real chain under the pipe.
- `Server`, `ServerLaws`, `ServerSide`: the session table and the rotation of the L2CAP listener under
  live handshakes, as a state machine, with what each event does written out, and as the object whose
  methods are proved equal to it.
- `Handshake`, `HandshakeRuns`: n nodes, each running `Server`, with frames arriving late, twice and in
  any order, and runs that bind a session on each pipe.
- `Dialer`, `DialTimers`, `DialScan`, `DialBackoff`, `DialOrder`, `DialLaws`, `DialSide`: the dial and
  scan scheduler, its timer bookkeeping, its scan cycle, its rate limit and backoff, its
  strongest-first order, what each event does written out, and the object whose methods are proved
  equal to it.
- `Links`, `LinkNet`: the link table of one node, and the agreement between n nodes.
- `TieBreak`: tie-break refusals among n nodes that run `Server` and `Dialer` together.
- `Facade`, `FacadeLaws`: start, stop, suspend, resume, topic, rebuild and close, with a step per
  await.

A handler that updates fields is a method of a class (`ServerSide.Sessions`, `DialSide.Scheduler`,
`Gatt.NotifyQueue`, `WriteChain.Peripheral`, `Handshake.Probe`, `Links.Table`, `Facade.Swarm`,
`Preamble.Reader`) whose postcondition equates the whole new state with a function of the old one;
the lemmas then speak about that function over all runs. The four larger ones also have a
`Handle` that takes any event to its handler and keeps the object in a state some run reaches, so
what is proved of runs holds of the objects. Time is an integer that never decreases,
an armed timer is an entry of a map, and the radio is a source of nondeterministic events. The
comments on the `State` types say which of their fields are histories kept only for the proofs.

## Model

| member | source | states |
|---|---|---|
| Bytes.LessTotal | lib/transport.js:275-277 | of two different keys exactly one is smaller, so exactly one end is the preferred initiator |
| Bytes.HexRoundTrip | lib/frames.js:44-51 | a hex id survives conversion to bytes and back in lower case |
| Frames.EncodeFrame | lib/frames.js:28-34 | the buffer filled in place holds type, id bytes and payload, in that order |
| Frames.DecodeEncode | lib/frames.js:28-51 | decoding inverts encoding for every type, 16-digit hex id and payload |
| Frames.EncodeDecode | lib/frames.js:44-51 | a buffer decodes exactly when it holds a header, and encoding what it decoded to gives the same bytes |
| Frames.WireIsEncode | lib/frames.js:28-51 | the byte-level packets used by the state machines are exactly encodeFrame and decodeFrame |
| Frames.WireRoundTrip | lib/frames.js:28-51 | the far end reads the packet that was sent |
| Frames.KeyRoundTrip | lib/frames.js:53-66 | key payloads round-trip if and only if there is no psm, or the flags are nonzero and the psm has 16 bits; key and flags always survive |
| Frames.ReasonRoundTrip | lib/frames.js:36-42 | a close reason crosses the wire inside a CLOSE frame, no reason included |
| Preamble.ReadIgnoresChunking | lib/l2cap.js:65-86 | for every chunking the reader resolves once eight bytes arrived, with the same id and the same remaining bytes in order |
| Preamble.PreambleDelivers | lib/l2cap.js:65-86 | the id and bytes a central wrote are the id and bytes the server reads |
| Preamble.Reader.OnData | lib/l2cap.js:75-80 | one data event advances the reading and stops listening exactly when it resolves |
| Preamble.Reader.OnTimeout | lib/l2cap.js:82 | a timeout resolves with no id and stops listening |
| GattStream.SlicesConcat | lib/gatt.js:21-30 | the fragments of a chunk add up to it, none empty, none over the limit |
| GattStream.MaxPayload | lib/gatt.js:128-131 | the payload leaves room for header and ATT overhead when the MTU allows a byte of payload, is the configured one before an MTU is known, and the default of 150 otherwise |
| GattStream.FramesFitMtu | lib/gatt.js:128-131 | every encoded frame of every chunk fits MTU minus 3 if and only if the MTU exceeds 12 |
| GattStream.Write | lib/gatt.js:21-30 | what the write loop sent is a run of fragments from the front, the whole chunk if no send was rejected, and nothing after the first rejection |
| Gatt.RunSettles | lib/gatt.js:65-115 | in every run each notified item is resolved once, rejected once or still queued in order, the radio accepted exactly the resolved ones, items are offered in notify order, and frames wait exactly while the retry timer is armed |
| Gatt.RoomEmptiesQueue | lib/gatt.js:72-100 | a drain against a radio with room empties the queue and resolves everything in order |
| Gatt.DrainOutcomes | lib/gatt.js:77-99 | a drain settles exactly the items in front of the first full answer, each by its own answer, so that a throw rejects its own item alone; the radio gets the accepted ones in order, the rest waits in order with the retry armed |
| Gatt.ResetRejects | lib/gatt.js:110-115 | a reset rejects every waiting item once, in order, offers none and disarms the retry |
| Gatt.SendJoins | lib/gatt.js:65-70 | a notify puts its frame behind what waits and drains all of it |
| Gatt.EventsDrain | lib/transport.js:311 | readyToUpdate and an armed retry timer both drain |
| Gatt.DrainKeepsSettled | lib/gatt.js:72-100 | a drain never unsettles a promise or takes back a frame |
| Gatt.NotifyQueue.SendFrame | lib/gatt.js:65-70 | the frame joins the end of the queue and the queue is drained at once |
| Gatt.NotifyQueue.DrainQueue | lib/gatt.js:72-100 | the while loop over the array is the recursive drain, on full queues and throws included |
| Gatt.NotifyQueue.ResetQueue | lib/gatt.js:110-115 | reset rejects every queued item once, in order, and disarms the retry |
| WriteChain.RunInOrder | lib/gatt.js:136-178 | in every run writes are called in send order, each after all earlier sends settled, with one listener pair registered exactly while an acknowledged write is out |
| WriteChain.SettledOnce | lib/gatt.js:136-178 | a settled send never changes |
| WriteChain.NeverBlocked | lib/gatt.js:136-141 | while no write is out the next unsettled send may go, rejected predecessors or not |
| WriteChain.EventOutcomes | lib/gatt.js:143-177 | what each event makes of each send: a completion resolves the write that is out, an error or its timeout rejects it, a throw rejects at once, an unacknowledged write resolves at once |
| WriteChain.QueueAppends | lib/gatt.js:136-141 | a send joins the end of the chain behind the one before it, and nothing else adds, drops or changes one |
| WriteChain.ProceedWrites | lib/gatt.js:136-141 | only the first waiting send is ever written, once all before it settled, and the radio has it unless the write threw |
| WriteChain.StepRefines | lib/gatt.js:136-178 | every chain event is a push, a transmission of the head or a settlement of the head of a FIFO |
| WriteChain.Peripheral.SendFrame | lib/gatt.js:136-141 | send chains the write behind the previous promise |
| WriteChain.Peripheral.Continue | lib/gatt.js:143-177 | the continuation registers listeners, writes, and cleans up when the write throws |
| WriteChain.Peripheral.OnCompletion | lib/gatt.js:149-161 | a completion or error event settles the registered write |
| Pipe.ReceivedIsPrefix | lib/gatt.js:21-34 | in every run of many sessions over one FIFO, what a session's far end received is a prefix of what was written to it |
| Pipe.ReceivedInFull | lib/transport.js:421-429 | once drained, a stream that never failed has arrived completely |
| Pipe.NoStrayBytes | lib/transport.js:376-381 | no bytes reach a session that was never opened |
| Pipe.SenderLives | lib/gatt.js:21-30 | a stream's sending half dies only by being destroyed or of the rejection of the send it awaits |
| Pipe.Delivers | lib/transport.js:421-429 | a session's first opening frame creates its receiver as decided, and every later DATA frame of an open session is appended and no other |
| Pipe.ReceiversStay | lib/transport.js:766-771 | nothing but a delivery or its own close touches a receiver |
| PipeEnds.CentralBytesArrive | lib/gatt.js:136-178 | the prefix property over the write chain, under any acks, errors, throws and timeouts |
| PipeEnds.RunAcks | lib/transport.js:490-496 | in every run control frames are written with acknowledgement and data as configured |
| PipeEnds.ServerBytesArrive | lib/gatt.js:65-115 | the prefix property over the notify queue, under any full queues, throws, retries and resets, with the retry armed while frames wait |
| Server.PsmNeverPulled | lib/transport.js:449-471 | in every run no pending session's PSM was retracted |
| Server.HelloCarriesLivePsm | lib/transport.js:402-416 | no HELLO ever carries a retracted PSM, and it carries the server's own key |
| Server.TimersArePending | lib/transport.js:402-413 | a session is pending exactly while its own pipe timer is armed, every armed pipe timer is a listed session's, and the table never exceeds maxInbound |
| Server.ChannelsMatch | lib/l2cap.js:139-152 | a channel goes to the waiting session whose id it brings, which gets its first stream; any other channel is destroyed |
| Server.StreamsBindOnce | lib/transport.js:500-508 | no session object is ever given two streams |
| Server.StepSends | lib/transport.js:376-435 | every step sends at most one frame: a CLOSE, or the HELLO of a session not listed before; suspend's goodbyes are one step per session |
| Server.MaybeCycleHolds | lib/transport.js:463-471 | after a rotation request it is held exactly while a session is pending, and otherwise the old PSM is gone |
| ServerLaws.StreamCloseEnds | lib/transport.js:500-508 | a closed stream takes its session off the table with its timer, tells the central, and rotates a live l2cap listener: retracted at once if nobody waits for a channel, else held |
| ServerLaws.FrameEnds | lib/transport.js:421-434 | so do a CLOSE, unanswered, and DATA before there is a stream, answered with CLOSE; any other frame of a listed session leaves the state alone |
| ServerLaws.FrameIgnored | lib/transport.js:366-381 | a suspended server, a short frame and a frame of an unlisted session that is no OPEN change nothing |
| ServerLaws.TimeoutEnds | lib/transport.js:407-413 | a pipe timeout drops its waiting session and tells the central, and neither rotates nor settles a held rotation |
| ServerLaws.RotatedForGood | lib/transport.js:449-471 | once the end of a session rotated the listener with nobody waiting, no later HELLO in any continuation carries that PSM |
| ServerLaws.OpenAnswered | lib/transport.js:382-420 | a fresh OPEN is refused for good exactly when key, policy or pipe rule the pair out, refused without a reason exactly when there is no PSM, no room or a busy smaller own key, and otherwise listed and greeted with key, flag and live PSM |
| ServerLaws.BindRotates | lib/transport.js:500-508 | binding a waiting session carries out a held rotation if it was the last one waiting |
| ServerLaws.RadioEmpties | lib/transport.js:599-609 | a lost radio or a finished close leaves no session and no pipe timer, and the listener alone |
| ServerLaws.SuspendEmpties | lib/transport.js:971-977 | the end of a suspend does too, forgets a held rotation, and retracts the listener on macOS only |
| ServerLaws.ResumeRetracts | lib/transport.js:986-992 | a resume takes an l2cap server's old listener down unless it is closing |
| ServerLaws.PlainEvents | lib/transport.js:437-447 | a channel that opens waits for its id or is destroyed at a halted server; an announced PSM is taken; a goodbye is one CLOSE |
| Server.RotationStrandedIff | lib/transport.js:407-413 | on a live l2cap server a held rotation is left waiting for nobody if and only if the last pending session timed out, the radio went down or the transport finished closing |
| Server.EarlyResumePulls | lib/transport.js:986-992 | a resume before suspend completed retracts a pending session's PSM if and only if some pending session holds the live one |
| Server.StrandedRun | lib/transport.js:407-413 | a run that leaves a rotation held for nobody: two OPENs, a CLOSE, a pipe timeout |
| Server.EarlyResumeRun | lib/transport.js:986-992 | a run after which an early resume does retract a pending session's PSM |
| ServerSide.Sessions.Unpublish | lib/l2cap.js:126-137 | a published PSM is retracted, where the backend can, and forgotten; without one nothing happens |
| ServerSide.Sessions.MaybeCycle | lib/transport.js:463-471 | the loop over the table holds or performs the rotation as the existential does |
| ServerSide.Sessions.ReapSession | lib/transport.js:449-459 | reaping clears the timer, drops the session and asks for a rotation |
| ServerSide.Sessions.CloseServerSession | lib/transport.js:473-478 | reap and tell the central, if the session is listed |
| ServerSide.Sessions.BindServerStream | lib/transport.js:500-508 | the session's timer is cancelled, its stream stored, and a held rotation carried out if it was the last pending one |
| ServerSide.Sessions.OnServerFrame | lib/transport.js:376-435 | the table, timers, listener and frames sent after one frame: OPEN judged in the source's order, DATA on a session without a stream closes it, CLOSE reaps it, anything else is ignored |
| ServerSide.Sessions.AcceptServer | lib/l2cap.js:139-152 | match a read id to a waiting session or destroy the channel |
| ServerSide.Sessions.PipeTimedOut | lib/transport.js:407-413 | a session still without a stream is dropped and told, one that was replaced or bound is left alone |
| ServerSide.Sessions.ReapAllSessions | lib/transport.js:599-609 | the loop clears every listed session's timer and no other |
| ServerSide.Sessions.SuspendTail | lib/transport.js:971-977 | no session, pipe timer or held rotation is left, and on macOS no listener |
| ServerSide.Sessions.Resume | lib/transport.js:986-992 | a live l2cap server gives up its old PSM |
| ServerSide.Sessions.SayGoodbye | lib/transport.js:923-927 | the loop notifies one CLOSE for each listed session and nothing else |
| ServerSide.Sessions.Handle | lib/transport.js:299-320 | every event goes to its handler and the object's state stays one that a run of Server reaches |
| ServerSide.Sessions.PendingPsmLives | lib/transport.js:461-471 | on the object itself: a pending session's PSM was not retracted, its timer is armed and the table is within its bound |
| Handshake.BoundAgrees | lib/transport.js:735-765 | in every run and delivery order, a central that binds a session did so on its own pipe, which is the server's, with a server that let that session in; each took the other's own key, and shouldConnect had answered yes to it at both ends |
| Handshake.MismatchNeverBinds | lib/transport.js:281-291 | between nodes on different pipes the central never gets past its probe and the server never lists the session |
| Handshake.ChannelAgrees | lib/l2cap.js:218-229 | an L2CAP channel bound at both ends carries the same session at both |
| Handshake.HelloAnswered | lib/transport.js:740-765 | a probing central takes a HELLO exactly if the key is well formed, not its own, wanted and not linked yet, the pipes agree and l2cap came with a PSM; a refusal releases the physical link unless the peer is merely linked already |
| Handshake.CloseAnswered | lib/transport.js:768-777 | a CLOSE ends the session and releases the physical link at once exactly if no stream was bound and the refusal was final; other frames change nothing |
| Handshake.ProbeEvents | lib/transport.js:716-733 | a probe begins with an OPEN of the node's own key and pipe, a channel that opens gets the session id first, a failed one leaves the probe waiting, and a session's end releases the physical link |
| HandshakeRuns.GattRun | lib/transport.js:716-765 | for any two nodes on gatt that may link, OPEN, acceptance and HELLO bind both ends |
| HandshakeRuns.L2capRun | lib/l2cap.js:139-184 | for any two nodes on l2cap that may link, the same and one channel bind both ends of that channel |
| Handshake.IdReadIsPreamble | lib/l2cap.js:142-143 | the id a server acts on is what the preamble reader resolves with, for every chunking |
| Handshake.StepGrows | lib/transport.js:382-420 | a server lists a session, and greets it, only in the step that accepts its OPEN; it claims a channel only for the id read from it |
| Handshake.Probe.OnCentralNotify | lib/transport.js:735-778 | a HELLO binds, opens a channel or ends the probe by the source's guards in their order, a CLOSE ends the session, a frame of another session or without one changes nothing |
| Handshake.Probe.ChannelOpened | lib/l2cap.js:177-184 | the opened channel is bound, with the session id written first, unless the session ended or the transport halted meanwhile |
| Links.OneLivePerPeer | lib/transport.js:879-904 | in every run a delivered connection not yet destroyed is the one stored under its remote key, so no key has two |
| Links.StoredUntilEvicted | lib/transport.js:879-910 | over any continuation of any run, a stored connection is still stored if and only if none of these happened: its own close, a preferred connection to the same peer opening, the table being cleared; a retired duplicate's late close is none of them |
| Links.SettledTable | lib/transport.js:879-919 | once the closes of destroyed connections were handled, the table holds exactly the opened live connections |
| Links.OpenDestroys | lib/transport.js:886-901 | an open destroys the newcomer if it is the dispreferred duplicate, or its stored rival if it is the preferred one, and nothing else |
| Links.EventEffects | lib/transport.js:202-210 | a lost radio destroys exactly the stored connections and keeps their entries until they close; suspending clears the table as well |
| Links.StoredStruck | lib/transport.js:202-210 | each stored connection is destroyed when the radio is lost and when the node suspends |
| Links.Table.TrackConn | lib/transport.js:879-904 | the table, the flags of both connections and the list of delivered connections after an open are those of the tie rule, and the connection is delivered exactly if it was kept |
| Links.Table.UntrackConn | lib/transport.js:906-909 | _untrack removes an entry only if it is still this connection's |
| Links.Table.DestroyAll | lib/transport.js:202-210 | the loop destroys exactly the stored connections and keeps the table |
| Links.Table.Handle | lib/transport.js:873-874 | every event goes to its handler and the table's state stays one that a run of Links reaches |
| Links.Table.LiveIsStored | lib/transport.js:879-904 | on the object itself: a live delivered connection is the stored one |
| LinkNet.PreferredIsSmaller | lib/transport.js:886-891 | at both ends the preferred channel is the one the smaller key initiated |
| LinkNet.TrackSparesSmaller | lib/transport.js:879-904 | in every reachable state of n nodes no open makes _track destroy a smaller key's channel, at either end |
| LinkNet.SmallerWins | lib/transport.js:887-901 | in every run without radio failures, once the smaller key's channel is open at both ends both nodes store it |
| LinkNet.TablesAgree | lib/transport.js:879-910 | with no close in flight two nodes name the same channel, or neither names one, if and only if no live channel between them is half open |
| LinkNet.HalfOpenRun | lib/transport.js:873-900 | a run in which the two tables do disagree with nothing in flight |
| LinkNet.CloseSettles | lib/transport.js:906-910 | delivering a close uses up exactly that one and causes no other, so delivery ends |
| LinkNet.LossDooms | lib/transport.js:584-597 | every channel a node stored when it lost its radio or suspended is closing at both ends |
| LinkNet.LossKeeps | lib/transport.js:584-597 | a lost radio keeps the entries until they close, a suspend drops them |
| TieBreak.RefusalsDescend | lib/transport.js:392-399 | in every run of n nodes each tie-break refusal goes to a strictly larger key, at a node with a dial or flush timer armed at that moment |
| TieBreak.RecordedWhen | lib/transport.js:392-399 | a tie-break refusal happens exactly when a fresh OPEN passes every other test, the server's key is the smaller and it is dialling; the dialer is told without a reason |
| TieBreak.NoCircle | lib/transport.js:275-277 | no chain of refusals returns to its start: never mutual, never circular, for any number of nodes |
| TieBreak.SomeoneGetsThrough | lib/transport.js:392-399 | in every group of nodes one was never refused by any of them |
| TieBreak.TimersWane | lib/transport.js:648-660 | over any run without new discoveries, the dial and flush timers fired plus the work left never exceed the work there was, plus one flush if a dial had overtaken its timer; after that many firings the node is no longer busy |
| TieBreak.WorkIsArmed | lib/transport.js:648-660 | while there is such work a dial or flush timer is armed, and only then |
| TieBreak.IdleRefusesNobody | lib/transport.js:395 | a node with none of that work left refuses nobody by the tie-break |
| DialTimers.ArmedAreHeld | lib/transport.js:645-661 | in every run the armed dial timers are exactly the records' timers, none shared, and a flush timer is armed exactly while candidates are held |
| DialTimers.RunBook | lib/transport.js:232-263 | in every run no timer is overwritten or orphaned, candidates are held exactly while the flush timer is armed, and while suspended no dial timer is armed |
| DialTimers.TimeoutIsAbort | lib/transport.js:660 | a dial timer that fires is still the one its device's record names, so its handler changes exactly what an abort of that device changes |
| DialTimers.BusyHasTimer | lib/transport.js:395 | a node is dialling or holding candidates if and only if a dial or flush timer is armed |
| DialScan.ScanNeverStalls | lib/transport.js:529-579 | in every run, while not halted, powered on and not power-cycled, exactly one scan timer is armed |
| DialScan.TickCadence | lib/transport.js:547-567 | a tick restarts an eager scan, or alternates scan and dark window with the source's delays |
| DialScan.DialPostpones | lib/transport.js:550-554 | a tick during a dial leaves the scan alone and arms the next one |
| DialScan.LossHunts | lib/transport.js:906-916 | losing the last link scans eagerly at once, online or not |
| DialScan.ResumeHunts | lib/transport.js:986-994 | so does a resume |
| DialScan.OverlappingResume | lib/transport.js:952-979 | a resume that overtakes suspend's drain leaves a running transport without scan timer if and only if a scan was still on or the radio off |
| DialScan.OverlapRun | lib/transport.js:944-998 | a run that stalls this way: a suspend right after opening, overtaken by a resume |
| DialScan.NextCloseRevives | lib/transport.js:910-915 | the next closing link ends that stall |
| DialBackoff.CooldownGrows | lib/transport.js:810-812 | the cooldown lies between base and maximum, never shrinks with more failures, and doubles up to the cap |
| DialBackoff.AbortHoldsOff | lib/transport.js:804-818 | an abort counts one failure, writes the cooldown it earns, and makes the device ineligible until then |
| DialBackoff.RunPaced | lib/transport.js:643-659 | in every run consecutive dials are at least DIAL_MIN_INTERVAL apart, and an aborted device keeps its record and last cooldown until it links or the table is cleared |
| DialBackoff.NoEarlyDial | lib/transport.js:633-641 | in every run a step dials nobody, or one device, at least DIAL_MIN_INTERVAL after the last dial and not before the cooldown on its record, whichever handler wrote it |
| DialOrder.SortStrongestSorts | lib/transport.js:673 | the order is by signal, missing as -100, a permutation, and stable |
| DialOrder.FlushDialsStrongest | lib/transport.js:672-676 | with the window open a flush dials exactly the strongest eligible candidate, holds exactly the other eligible ones, strongest first, and drops the rest |
| DialOrder.FlushClosed | lib/transport.js:643-655 | with the window closed it dials nobody and holds exactly the eligible ones |
| DialOrder.CandidatesDrain | lib/transport.js:672-676 | without new discoveries, whatever else happens, dials come from the held candidates in nonincreasing signal order, and k candidates are gone after k firings of the flush timer, or k + 1 if a dial had already overtaken it |
| DialOrder.RunDated | lib/transport.js:643-655 | in every run the flush timer is due the moment the dial window opens, or a dial made since it was armed has overtaken it |
| DialOrder.FlushPrompt | lib/transport.js:643-655 | what a flush holds again is due exactly when the next window opens |
| DialLaws.OnlyFitting | lib/transport.js:633-642 | in every run a step dials, or newly holds, only a peripheral that fits: node running with room, and the device not linked, not known as a linked peer, not cooling down, not being dialled |
| DialLaws.DiscoverActs | lib/transport.js:633-668 | a discovery that does not fit changes nothing; one that does is dialled once 500 ms have passed since the last dial, and otherwise held with a timer due when they have |
| DialLaws.FlushFits | lib/transport.js:672-676 | a flush dials the strongest of the held candidates that fit and holds exactly the others that fit |
| DialLaws.DialDoes | lib/transport.js:658-667 | a dial stops the scan and arms the device's timer; a connect that throws counts a failure with its cooldown and resumes the scan |
| DialLaws.AbortDoes | lib/transport.js:804-818 | an abort changes one record: a failure more, its cooldown, no peripheral, no timer; the scan resumes |
| DialLaws.EndDoes | lib/transport.js:785-802 | ending a session changes one record: thirty seconds of cooldown, the peripheral kept or not, no timer; the scan resumes |
| DialLaws.AlreadyLinkedDoes | lib/transport.js:748-752 | the same for a peer already linked, whose key is noted and whose link is kept up |
| DialLaws.BindDoes | lib/transport.js:510-525 | a bound stream marks the record linked and forgets failures, cooldown and timer, unless halted |
| DialLaws.CloseDoes | lib/transport.js:865-871 | a closed connection's record is not linked any more, and goes if it then says nothing |
| DialLaws.TrackDoes | lib/transport.js:879-900 | an opened handshake notes the key on the record, and a kept connection's key among the links |
| DialLaws.UntrackDoes | lib/transport.js:906-916 | the close of a stored connection drops its key, and the last one opens the hunt window with the scan re-timed |
| DialLaws.CentralErrorDoes | lib/transport.js:835-842 | a failed connection forgets every dial in flight without counting a failure |
| DialLaws.RadioDownDoes | lib/transport.js:584-597 | a lost radio forgets records, candidates, dials and the scan, and waits for a rebuild |
| DialLaws.PoweredOnDoes | lib/transport.js:322-329 | the central back on scans if the radio never went down, else asks once for a rebuild |
| DialLaws.SuspendBeginsDoes | lib/transport.js:944-949 | as a suspend begins no timer is left armed and no candidate held |
| DialLaws.SetOnlineDoes | lib/transport.js:214-221 | a changed online flag starts or re-times the scan, unless halted |
| DialLaws.ResumeDoes | lib/transport.js:986-994 | a resume opens the hunt window and the scan unless closing, and brings back no record |
| DialLaws.CloseEndsDoes | lib/transport.js:1026-1044 | the end of a close leaves no timer, record, candidate or link |
| DialLaws.HaltedTick | lib/transport.js:547-549 | a scan timer that fires on a halted node is not armed again |
| DialLaws.ServerBindsDoes | lib/transport.js:875 | a server's bound stream resumes the scan and touches no record |
| DialSide.Scheduler.Prune | lib/transport.js:248-253 | the record goes exactly when every field is blank; everything else stays |
| DialSide.Scheduler.ClearDeviceTimers | lib/transport.js:255-263 | the loop cancels every record's dial timer and keeps the records, then cancels the flush timer and lets go of the candidates |
| DialSide.Scheduler.ArmScanRestart | lib/transport.js:541-569 | the old scan timer is cancelled and one is armed with the delay of the current phase: eager, scanning, dark while linked or dark while online |
| DialSide.Scheduler.OnScanTick | lib/transport.js:547-567 | the tick postpones during a dial, otherwise switches or restarts the scan and arms the next tick |
| DialSide.Scheduler.SetOnline | lib/transport.js:214-221 | a changed online flag starts a stopped scan or re-times a running one, unless halted |
| DialSide.Scheduler.OnDiscover | lib/transport.js:633-668 | a discovery is ignored, held with a flush timer due when the dial window opens, or dialled at once, by the source's guards in their order, a throwing connect counting as a failure |
| DialSide.Scheduler.SetCandidate | lib/transport.js:647 | Map.set keeps the place of a key already present |
| DialSide.Scheduler.FlushCandidates | lib/transport.js:649-676 | the candidates are taken and rediscovered strongest first, once the flush timer is due |
| DialSide.Scheduler.AbortDial | lib/transport.js:804-818 | one more failure, a cooldown that grows with failures and is shorter while lonely, the dial timer cancelled, the scan resumed |
| DialSide.Scheduler.EndCentral | lib/transport.js:785-802 | the longest cooldown, the peripheral kept or released, the dial timer cancelled, the scan resumed |
| DialSide.Scheduler.BindCentralStream | lib/transport.js:510-525 | the dial timer is cancelled and, unless halted, the record is marked linked with its failures and cooldown forgotten and the scan resumed |
| DialSide.Scheduler.Untrack | lib/transport.js:906-916 | the entry goes if it was this connection's, and losing the last link opens the hunt window and restarts the scan |
| DialSide.Scheduler.BeginSuspend | lib/transport.js:944-949 | no scan, dial or flush timer is left armed and no candidate held when the drain begins |
| DialSide.Scheduler.EndSuspend | lib/transport.js:953-970 | after the drain no record, link or running scan is left |
| DialSide.Scheduler.Resume | lib/transport.js:986-994 | the hunt window opens and the scan starts, unless closing |
| DialSide.Scheduler.OnCentralError | lib/transport.js:835-842 | the loop cancels every dial in flight and forgets the records that then say nothing |
| DialSide.Scheduler.Handle | lib/transport.js:322-334 | every event goes to its handler and the object's state stays one that a run of Dialer reaches |
| DialSide.Scheduler.BooksHold | lib/transport.js:232-263 | on the object itself: the armed dial timers are the records' timers, and a working radio's scan timer is armed |
| Facade.NoLeak | index.js:90-149 | in every interleaving each transport created is either current or was abandoned exactly once, and only the current one can be awake |
| Facade.InstallsOnlyWhenWanted | index.js:97-106 | in every interleaving a step that installs a transport follows an await, finds none current and the owner started, not suspended and not closing, installs exactly the next one awake, and every older one was abandoned and is paused |
| Facade.RetiredForGood | index.js:110-121 | an abandoned transport stays abandoned and paused through every continuation |
| FacadeLaws.WakesOnlyUncycled | index.js:97-101 | in every interleaving a start or resume that wakes a sleeping transport finds it current and never power-cycled |
| FacadeLaws.GoesLive | index.js:97-101 | a start or resume that goes live keeps an uncycled transport and wakes it, and abandons a power-cycled one at once |
| FacadeLaws.CycledIsReplaced | index.js:97-121 | a whole start or resume that goes live on a power-cycled transport ends with a fresh one, the old one abandoned and its managers retired |
| FacadeLaws.PowerCycleRenews | index.js:138-149 | a power cycle of a live node ends with a fresh transport awake in place of the cycled one |
| FacadeLaws.TopicBounces | index.js:183-191 | a changed topic puts a live transport to sleep and the call ends with it awake; otherwise nothing happens |
| FacadeLaws.BounceWakes | index.js:186-189 | the end of that bounce wakes the current transport as it is, cycled or not |
| FacadeLaws.TopicDone | index.js:186-191 | the end of a topic change wakes the current transport if the owner is still live and does nothing else |
| FacadeLaws.TopicWakesCycled | index.js:183-191 | a run in which a power cycle during the bounce leaves a cycled transport awake and no rebuild under way |
| FacadeLaws.CallsPause | index.js:151-163 | stop, suspend and close put the current transport to sleep and touch no other |
| FacadeLaws.BuildsExactlyIf | index.js:100-146 | a transport is built exactly when a start, resume or rebuild continues after its await, none is current and the owner is started, not suspended and not closing |
| FacadeLaws.FlagsOnly | index.js:90-170 | calls that find nothing to wake or put to sleep only set their flag, and repeated ones do nothing |
| Facade.BuildsCleanIff | index.js:108-121 | in every interleaving a transport is built after all older managers were retired if and only if no call is still retiring some |
| Facade.OverlapBuildsEarly | index.js:138-149 | suspend and resume during a rebuild do build the new transport too early |
| Facade.AwakeIffLive | index.js:90-191 | when calls do not overlap, with power cycles in between, a transport is awake if and only if started and not suspended, and every build comes after all older managers were retired |
| Facade.CallsAreRuns | index.js:90-191 | calls made one at a time are one of the interleavings |
| Facade.Swarm.AbandonCurrent | index.js:110-121 | the current transport is paused, recorded as taken and no longer current before its suspend is awaited |
| Facade.Swarm.ActivateCurrent | index.js:97-106 | a transport that did not power-cycle is woken, any other is abandoned |
| Facade.Swarm.StartCall | index.js:90-95 | started is set and the transport activated unless suspended, and nothing happens when unsupported, started, closing or closed |
| Facade.Swarm.StopCall | index.js:151-156 | started is cleared and the current transport paused unless already suspended |
| Facade.Swarm.SuspendCall | index.js:158-163 | suspended is set and the current transport paused if started |
| Facade.Swarm.ResumeCall | index.js:165-170 | suspended is cleared and the transport activated if started |
| Facade.Swarm.RebuildFor | index.js:140-142 | the transport that asks is abandoned only if it is still current and nothing is closing |
| Facade.Swarm.After | index.js:102-146 | after its await a call builds only if none is current and it is still wanted, and a topic change wakes the transport only if it is |
| Facade.Swarm.Handle | index.js:90-191 | every event goes to its handler and the object's state stays one that an interleaving reaches |
| Facade.Swarm.OnlyCurrentAwake | index.js:90-149 | on the object itself: an awake transport is the current one and was never abandoned |

## Left out

Stated weaker than one might wish, because the code is so:

- Frames.KeyRoundTrip: a psm given with zero flags is dropped by the encoder, and one over 16 bits is truncated; the lemma is the exact condition.
- GattStream.FramesFitMtu: with an MTU of 12 or less the default payload of 150 takes over and does not fit; the lemma is the exact condition.
- Server.RotationStrandedIff: the pipe timeout deletes its session without asking for the held rotation, so "a held rotation has a pending session" is proved with its exact exceptions instead of as an invariant (Server.StrandedRun is such a run).
- LinkNet.TablesAgree: a channel whose handshake completed at one end only is stored there and not at the other; agreement is proved to fail in exactly that case (LinkNet.HalfOpenRun is such a run).
- LinkNet.SmallerWins: a radio failure or a suspension may of course take the smaller key's channel; no step of _track ever does (LinkNet.TrackSparesSmaller).
- Facade.BuildsCleanIff: overlapping calls can build before retirement; Facade.OverlapBuildsEarly is such a run.
- FacadeLaws.WakesOnlyUncycled: holds of start and resume; the end of a topic change wakes whatever transport is current, and FacadeLaws.TopicWakesCycled is a run that wakes a power-cycled one.
- DialScan.ScanNeverStalls: holds for a transport whose radio never power-cycled; after a power cycle the transport waits to be replaced and does not scan by itself.
- TieBreak.TimersWane: speaks of runs without new discoveries, which may add work again.

Assumptions the models make:

- Session ids are drawn once each, and a PSM announced by the operating system is never one retracted before.
- `resume` of a transport is entered only after its `suspend` completed; Server.EarlyResumePulls and DialScan.OverlappingResume say exactly what happens otherwise, Server.EarlyResumeRun and DialScan.OverlapRun that it does.
- `central.startScan` does not throw: `_startScan` sets its flag first and arms the timer last, so a throw there would leave a scan that is on by its flag and, unless a timer was armed before, never ticked again.
- A timer never fires before its deadline on the clock the handlers read; only the flush timer's deadline matters to a claim.
- A handler reads the clock once; two readings inside one handler are taken to be equal.
- Peripheral ids are natural numbers, so the empty id, for which `_clearDial` does nothing, is not modelled.
- One channel per direction between two nodes: a new one is opened only after both ends saw the former one close.
- The radio loses, reorders and duplicates nothing it accepted for the byte pipe; a session's opening frame is sent before its data; the payload size is constant within a chunk. `Handshake` assumes none of this and lets frames repeat and overtake each other.
- Only the nodes of the model write frames: a stranger's forged frames are not modelled.
- A fresh peripheral object per connection, and no data event between the end of the preamble and the stream's own listener.

Not modelled:

- The Bluetooth managers, the Noise cryptography, service UUID hashing, logging, `update` events and the contents of error objects.
- The `peripheral` callbacks between connect and notify (service discovery, subscription): they either lead to an OPEN or to an abort, which are events here.
- The deadline on opening a central's L2CAP channel and the bookkeeping of stale channels: an open succeeds or fails, as an event.
- Advertising, and adding the GATT service.
- `_sayGoodbye` on the central side: its CLOSE frames are among those any central may send; the drain is the wait between the two halves of suspend.
- Total links: only the inbound session bound is enforced by the code, and only that is stated.
- Removing listeners and unref'ing timers.
