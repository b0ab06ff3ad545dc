# rcn: a verified model of the remote-input daemons

rcn reads input events from the devices of one machine (the client) and replays them on virtual devices of another
(the server). The two daemons exchange framed messages over one non-blocking socket; short-lived relay programs tell
either daemon to pause, resume, switch, list or stop. This project models that program from its byte buffers up to runs
of both daemons, and proves what the layers promise together.

## Layers

- `Base`, `Wire`: bytes, little-endian integers, the 16-byte message header, input events, and the peer protocol with
  its encoding (64-bit little-endian ABI on both ends; the fields of `struct device_info` are regrouped).
- `ByteStore`: `u_array` and `u_queue` as objects over a raw byte buffer, refining plain sequences; amortised growth.
- `Streams`: the resumable stream as a value, with one function per operation.
- `Slots`, `EpollStreams`: the same stream as the object that is updated in place. Its queue is a `u_queue` of packed
  slots in the byte store, the bodies are buffers of their own, and `next` is a pointer to the fallback or into the
  block that holds the slots, which a push may replace. Every method is proved equal to its function in `Streams`. The
  relay program's receive loop runs on it.
- `Framing`, `Loss`: two streams joined by two byte channels, any interleaving and any chunking; and exactly which runs
  lose messages when the program's one hidden condition is dropped.
- `Daemons`, `DaemonContexts`: one daemon, as a value with one function per message, command and wake-up, and as the
  object whose methods loop over devices and relays; every method is proved equal to its function. `Relays` states what
  each relay is told by a handler, `Endings` what whole wake-ups tell it and how streams end.
- `Replay`: what is queued on a virtual device, what its stuttering stream makes of it, and which keys are down.
- `Sessions`, `Tables`, `Invariants`, `Convergence`, `Pausing`, `HeldKeys`: the two daemons with the messages under way
  between them, as a step system; its invariant; and the properties of its runs.
- `Network`, `OneWay`, `Theorems`: the two daemons with byte channels. Every run refines a run of the session, so all
  of the above holds whatever the reads and writes of the socket return.
- `PlainRuns`: the runs in which no relay pauses or resumes. `NetConvergence`: those in which relays of both daemons do.
- `RelayRuns`: what a relay reads over a whole run. `Stops`: stops, and the end of the loop. `Names`, `Reports`: more that
  the two device tables share over every run.
- `Running`: the loops of both daemon objects, proved to end where the net of values does.
- `Progress`: the loop cannot get stuck with a message under way to the server.
- `Ownership`: the pointer arrays `stream_ptrs` and `relay_streams`, kept in the byte store, over any run and through
  the final cleanup.
- `Args`: the argument parser. `Grammar`: the language that it accepts, without reference to the parser.

## Main results

1. `Framing.FramingRoundTrip`: over every interleaving of sends, partial writes, partial reads and EAGAINs in both
   directions, each end has collected a prefix of what the other queued, and all of it once drained, provided that a
   message is queued only while nothing is half read on its stream. `Loss.LossIsExact` drops the condition: once
   everything is drained the reader has collected all messages if and only if no finished write was settled over a
   message half read, or read and not collected. `Loss.HalfReadMessageIsLost`: a message interrupted so never arrives,
   whatever both ends do afterwards, further sends included. `Loss.LossHappens` gives such a run for any two messages.
2. `Network.NetRefinesSession`: the byte-level system of both daemons refines the system of messages.
   `OneWay.OneWayNeedsNoCondition`: when only the client's relays pause and resume, no condition is left at all.
   `Network.NetNeverFails`: no wake-up of a device, a relay or the peer ends a daemon with an error.
   `Progress.EverythingCanArrive`: the direction in which each stream is armed never blocks the protocol; from every
   reachable state in which neither daemon is exiting, wake-ups that epoll would report deliver everything to the
   server, and the device tables are then equal.
3. `Theorems.TablesReplicate`, `Causality`, `GrabsMatchState`, `ListsAgree`: the device tables agree up to the messages
   under way; no lookup falls through to the last device.
4. `Theorems.EndToEndReplay`, `MotionIsConserved`: what is written to a virtual device is what its session scripts, up
   to repeats of events that are not relative motions, and the inputs scripted are the first that were read from the
   physical device; relative motion is never repeated or lost. `PlainRuns.PlainReplay`: while no relay pauses or
   resumes, what is written is, up to those repeats, a prefix of what was read with a SYN behind each relative motion,
   and all of it once drained.
5. `Theorems.PausedHoldsNoKeys`, `PausedHandlesNoInput`: a pause commanded on the client leaves no key pressed. For a
   pause commanded on the server this is false: `HeldKeys.PausedServerHoldsKey` runs any devices into a state in which
   both daemons are paused, nothing is under way and any given key is held. `Pausing.HeldWhenDrained` says exactly which
   keys are held in every run.
6. `NetConvergence.TickConverges`: a command of a relay leaves the daemons converging if and only if it does not cross
   its opposite, and nothing else changes whether they converge; so the daemons of a run without crossing commands
   agree whenever nothing is under way (`NetRunConverges`). `Convergence.CrossingDiverges` reaches a session that does
   not agree by deliveries alone, for any devices; a further command restores agreement (`FreshCommandConverges`).
7. `RelayRuns.RelayHears`: from the moment it connects until it hangs up, a relay is sent exactly the messages that the
   daemon has for it, whole and in order, in every run of both daemons, and all of them once its queue is empty.
   `Endings.RelayGone`: a relay that hangs up is removed, and nothing else changes.
8. `Stops.StopReachesClient`: a stop commanded at the server ends the client too, as soon as its relays have gone.
   `Names.NamesReplicate`, `Reports.GrabsAreReportedFirst`: each device of the server is the client's under its virtual
   name, and a pause or resume is handled only when the table already shows what was released or grabbed for it.
9. `Grammar.ParserAccepts`: the parser accepts exactly the sequences of phrases of an independent grammar in which nothing
   needed is missing, and gives them exactly their meaning; `ParserSound` and `ParserRejects` spell out both halves.
   Parsing ends on every argument vector, and the order and spelling of connect's flags do not matter.
10. `ByteStore`, `Ownership`: refinement of sequences across doubling and overlapping moves, fewer than 2n copies for n
    adds; ownership over every run and a cleanup that frees every stream once.

Where the repository's README says that a paused server does not replay events any more, the code does so only for a
pause that the client commands; the model follows the code.

## Model

| member | source | states |
|---|---|---|
| Wire.HeaderRoundTrip | include/rcn_types.h:51-54 | the header's size and value survive the wire |
| Wire.FirstFrame | rcn_stream.c:131-150 | a whole header and the body it announces, at the front of a stream of encoded messages, are the first message: framing is prefix-free |
| Wire.EventRoundTrip | rcn_device.c:405-408 | an input event survives being copied into a message and out again |
| Wire.PeerMsgRoundTrip | rcn_peer.c:95-127 | every peer message is recognised by the handler that its header selects, with its fields intact |
| ByteStore.UArray.constructor | rcn_util.c:51-63 | a new array is empty and has the given capacity |
| ByteStore.UArray.Resize | rcn_util.c:37-49 | growing keeps every element; it copies as many as there are |
| ByteStore.UArray.Add | rcn_util.c:73-85 | appends the element, doubling first when full; fails only on a freed array |
| ByteStore.UArray.Remove | rcn_util.c:113-127 | deletes element i and keeps the others in order; fails exactly out of range |
| ByteStore.UArray.GetV | rcn_util.c:157-167 | reads element i; fails exactly out of range |
| ByteStore.UArray.RemoveGet | rcn_util.c:129-144 | returns element i and deletes it |
| ByteStore.UArray.FindIndex | rcn_util.c:169-182 | the index of the first element with these bytes, or -1 when there is none |
| ByteStore.UArray.Free | rcn_util.c:184-191 | a freed array has no buffer, and every later operation on it fails or has no effect |
| ByteStore.ShiftRemoves | rcn_util.c:118-121 | moving the slots behind i down over an overlapping range deletes element i, for any element size |
| ByteStore.FirstOverwritten | rcn_util.c:212-219 | writing through the front's address replaces the front and no other element |
| ByteStore.GrowthIsAmortised | rcn_util.c:37-49 | after n adds the capacity is the initial one times a power of two and at most max(c, 2n), and fewer than 2n elements were copied |
| ByteStore.AddAll | rcn_util.c:73-85 | the real array, filled by n adds, holds them in order and has copied fewer than 2n |
| ByteStore.UQueue.constructor | rcn_util.c:194-201 | a new queue is empty |
| ByteStore.UQueue.Push | rcn_util.c:203-210 | appends at the back |
| ByteStore.UQueue.Peek | rcn_util.c:212-219 | the front's address: the start of the current block, which holds the front's bytes; fails exactly when empty |
| ByteStore.UQueue.Poke | rcn_util.c:212-219 | a write through that address replaces the front and nothing else |
| ByteStore.UQueue.Pop | rcn_util.c:221-229 | takes the front; is_empty stays true to the length |
| ByteStore.RunQueue | rcn_util.c:203-229 | over any run of operations, what was popped and then what is left are what was pushed, in order |
| Streams.TransferKeepsItem | rcn_stream.c:158-203 | a transfer keeps an item well formed and fails only when the system call does |
| Streams.TransferOutcome | rcn_stream.c:158-203 | an end of file and a missing device close the item without an error, EAGAIN leaves it where it was, another error closes it, bytes bring it on by their number |
| Streams.NewStreamIs | rcn_stream.c:14-30 | a new stream is safe, has nothing queued or begun and waits for something to read |
| Streams.CallKeepsSafe | rcn_stream.c:67-218 | every call keeps the stream safe; a transfer asks for at least one byte, never overflows, and a push keeps the head's progress |
| Streams.RunKeepsSafe | rcn_stream.c:67-218 | the same over any run of pushes, transfers and collects, with the armed direction that of the next item |
| Streams.ResetAfterAppend | rcn_daemon.c:233-256 | answers queued on the stream being resolved are not touched by its reset |
| Slots.PackRoundTrip | include/rcn_types.h:61-70 | an item survives being copied into a slot of the queue and out again |
| Slots.PushSlot | rcn_stream.c:67-82 | a pushed item appears behind the others, whose bodies share no buffer with it |
| Slots.StoreFirst | rcn_stream.c:158-197 | storing the first item changes neither the other items nor the fallback |
| Slots.StoreFallback | rcn_stream.c:158-197 | storing the fallback changes none of the queued items |
| Slots.PopSlot | rcn_stream.c:205-208 | copying the first slot over the fallback moves the item, its buffer still used once |
| Slots.FreeBuffer | rcn_stream.c:106-110 | freeing the fallback's buffer takes it from no queued item |
| EpollStreams.EpollStream.constructor | rcn_stream.c:14-30 | a new stream points at its fallback |
| EpollStreams.EpollStream.LoadNext | rcn_stream.c:158-161 | what next points to is the next item of the stream's value |
| EpollStreams.EpollStream.StoreNext | rcn_stream.c:158-197 | writing through next updates that item only |
| EpollStreams.EpollStream.QueueWriting | rcn_stream.c:67-88 | pushes, points next at the live head and arms the right direction; the bytes of a half-written head survive the move to a larger block |
| EpollStreams.EpollStream.Transfer | rcn_stream.c:158-203 | moves bytes through next, which is live, exactly as StreamStream says, and closes it at an end of file; a body being read is allocated on first use |
| EpollStreams.MoveBytes | rcn_stream.c:158-203 | the item's update, branch by branch; an end of file closes it, EAGAIN leaves it |
| EpollStreams.CountBytes | rcn_stream.c:187-197 | the phase change at the end of a header or a body |
| EpollStreams.EpollStream.CollectItem | rcn_stream.c:205-218 | pops a finished write into the fallback and repoints next |
| EpollStreams.EpollStream.ResetStream | rcn_epoll.c:74-81 | frees and clears the fallback and re-arms |
| EpollStreams.EpollStream.SyncEpoll | rcn_epoll.c:83-93 | arms for the direction of the next item |
| EpollStreams.AwaitReply | rcn_relay.c:187-197 | however the bytes arrive, the relay receives exactly the first message, within one non-empty wake-up per byte |
| Framing.ReadExtends | rcn_stream.c:131-197 | a read of any size adds exactly its bytes to the message under construction |
| Framing.WriteShrinks | rcn_stream.c:131-197 | a write of any size emits exactly the next bytes of the message |
| Framing.CompleteIsFirst | rcn_stream.c:187-197 | a completely read item is the oldest message under way |
| Framing.WakeOutbound | rcn_stream.c:158-203 | a transfer keeps the outgoing direction carrying the pending messages |
| Framing.WakeInbound | rcn_stream.c:158-203 | a transfer keeps the incoming direction carrying the pending messages |
| Framing.SettleWrite | rcn_stream.c:205-218 | retiring a finished write changes neither direction |
| Framing.SettleRead | rcn_daemon.c:233-256 | collecting a finished read delivers the oldest pending message and nothing else |
| Framing.WriterDelivers | rcn_stream.c:67-218 | no step of the writer, calm or not, disturbs what it has under way to the reader |
| Framing.ReaderDelivers | rcn_stream.c:158-218 | nor does a step of the reader, unless it settles a write over something it has read |
| Framing.StepKeepsFramed | rcn_stream.c:67-218 | every calm step of either end keeps both directions framed |
| Framing.FramingRoundTrip | rcn_stream.c:67-218 | each end has collected a prefix of what the other queued, and all of it once drained |
| Framing.SharedFallback | rcn_stream.c:205-218 | queueing and writing a message keeps the inbound direction framed if and only if nothing was half read |
| Loss.StepFindsNothing | rcn_stream.c:158-218 | no step of either end, sends included, brings lost bytes back, and every lossy one loses more |
| Loss.HalfReadMessageIsLost | rcn_daemon.c:233-256 | a message interrupted half read, or read and not collected, is never made up for, in any continuation |
| Loss.LossIsExact | rcn_stream.c:205-218 | the reader has a prefix while no settling was lossy; once drained it has everything if and only if none was |
| Loss.LossHappens | rcn_stream.c:205-208 | for any two messages, a run of a new connection in which queueing the one loses the other |
| Daemons.ScanById | rcn_device.c:299-309 | the first device with the id, or the last device when none has it |
| Daemons.FindById | rcn_device.c:299-309 | finds a device with the id exactly when there is one |
| DaemonContexts.DaemonContext.CaptureDevices | rcn_device.c:149-174 | opens and announces every device, then grabs and announces that |
| DaemonContexts.DaemonContext.CtrlDevice | rcn_device.c:190-209 | grabs or releases one device, and tells the peer |
| DaemonContexts.DaemonContext.CtrlDevices | rcn_device.c:373-392 | grabs or releases every device and registers or removes its fd, in order |
| DaemonContexts.DaemonContext.FindDevice | rcn_device.c:299-309 | the loop finds what FindById says |
| DaemonContexts.DaemonContext.EmitEvent | rcn_device.c:311-328 | queues the event on the device, a SYN behind a relative motion |
| DaemonContexts.DaemonContext.ReleaseKeys | rcn_device.c:330-350 | queues a key-up for every key of the device, then a SYN_REPORT, which is the last thing queued |
| DaemonContexts.DaemonContext.ReleaseKeysAll | rcn_device.c:352-362 | does so for every device |
| DaemonContexts.DaemonContext.BroadcastHeader | rcn_relay.c:78-88 | queues the header for every relay |
| DaemonContexts.DaemonContext.PauseCommand | rcn_relay.c:223-245 | a relay's pause, with its already-paused and no-peer cases |
| DaemonContexts.DaemonContext.ResumeCommand | rcn_relay.c:247-263 | a relay's resume, announced to no relay |
| DaemonContexts.DaemonContext.StopCommand | rcn_relay.c:277-288 | a relay's stop |
| DaemonContexts.DaemonContext.ListCommand | rcn_relay.c:290-313 | answers with the list of devices |
| DaemonContexts.DaemonContext.ListDevices | rcn_relay.c:296-304 | the list has the name and grab state of every device in order |
| DaemonContexts.DaemonContext.HandleCommand | rcn_relay.c:315-351 | dispatches a request; an unknown one is an error |
| DaemonContexts.DaemonContext.HandleMessage | rcn_peer.c:95-127 | applies a peer message, a stop making the client exit; without devices an update or input is an error |
| DaemonContexts.DaemonContext.SettlePeer | rcn_daemon.c:221-256 | collects, handles and resets the peer's stream |
| DaemonContexts.DaemonContext.SettleRelay | rcn_daemon.c:221-256 | collects, handles and resets a relay's stream; SettledTells says that the answers survive it |
| DaemonContexts.DaemonContext.SettleDevice | rcn_device.c:394-413 | sends a completed event to the peer under the device's id |
| DaemonContexts.DaemonContext.Wake | rcn_daemon.c:182-262 | one wake-up with one ready stream |
| Relays.RelaysAreAnswered | rcn_relay.c:214-313 | the bytes still to be written to each relay grow by exactly its answer: everyone hears of a pause or stop, only the sender of a refusal, nobody of a resume |
| Relays.FirstAnswer | rcn_relay.c:315-351 | a relay that has just asked finds its answer first |
| Relays.PeerCommandsAreAnnounced | rcn_peer.c:42-93 | a peer's command is announced to every relay |
| Endings.RelayGone | rcn_relay.c:205-212 | a relay that hangs up is removed, the others keep their order, and nothing else changes |
| Endings.RelayFails | rcn_stream.c:172-181 | any other error on a relay's socket ends the daemon |
| Endings.LastRelayGone | rcn_daemon.c:174-180 | a daemon that is to exit does so when its last relay has hung up, and no sooner |
| Endings.SettledTells | rcn_daemon.c:233-256 | settling a relay's stream leaves what each relay has still to read as it was, but for the answers |
| Endings.RelayWakes | rcn_daemon.c:182-262 | over a whole wake-up of a relay, what is written to each relay and what it has still to read are what it had to read before and exactly what it is now told |
| Endings.PeerWakes | rcn_daemon.c:182-262 | over a whole wake-up of the peer each relay is told what the message announces |
| Endings.AcceptAdds | rcn_daemon.c:38-52 | a relay that connects has nothing to read and changes nothing for the others |
| Endings.DeviceWakes | rcn_daemon.c:182-262 | a wake-up of a device changes nothing but that device |
| Endings.DeviceGone | rcn_stream.c:172-185 | an unplugged physical device is beyond the session, a missing virtual one ends the server |
| Endings.PeerGone | rcn_daemon.c:226-229 | losing the peer ends the session, an error on its socket the daemon |
| Endings.NonsenseEndsDaemon | rcn_peer.c:95-127 | an unknown message ends the daemon |
| RelayRuns.MoveTells | rcn_daemon.c:182-262 | the same for every move of either daemon |
| RelayRuns.RelayHears | rcn_relay.c:187-197 | in any run a relay is sent a prefix of the messages that the daemon has for it, and all once its queue is empty |
| Relays.ListEntry | rcn_relay.c:297-304 | entry j of the list is device j's name and grab state |
| Replay.ReplayKeepsMotion | rcn_daemon.c:251-256 | stuttering neither repeats nor drops a relative motion |
| Replay.DisplacementOfRels | rcn_device.c:317-323 | the displacement is that of the relative motions |
| Replay.ReplayKeepsHeld | rcn_daemon.c:251-256 | stuttering does not change which keys are down |
| Replay.ReleaseLiftsAll | rcn_device.c:330-350 | releasing a device's keys lifts every key, whatever was replayed before |
| Replay.ReleaseIs | rcn_device.c:330-350 | nothing for a device without keys; else one key-up for each supported key, ascending, and then a SYN_REPORT |
| Replay.ScriptAtToggle | rcn_device.c:330-362 | a script falls apart at a pause or resume: what was before, the release, the inputs since |
| Replay.ScriptsAreGuarded | rcn_device.c:317-323 | everything queued has a SYN_REPORT directly behind each relative motion |
| Replay.PushReplays | rcn_stream.c:98-104 | queueing events extends what is to be replayed and disturbs nothing |
| Replay.WriteReplays | rcn_stream.c:98-117 | a write of one event replays the next queued one, or repeats the last one, which is no relative motion |
| Replay.HeldIsRecent | rcn_peer.c:42-73 | the keys held by a script are those pressed since its last pause or resume |
| Replay.ScriptMotion | rcn_device.c:311-328 | the relative motions queued are those of the inputs handled |
| Replay.ScriptInputs | rcn_device.c:311-328 | without pauses exactly the script of the inputs handled is queued |
| Replay.ScriptedInputs | rcn_device.c:317-323 | that script adds nothing to the inputs but SYN events |
| Sessions.HandlerEffect | rcn_relay.c:315-351 | what each request does to everything but the relays |
| Sessions.MessageEffect | rcn_peer.c:10-93 | exactly which messages are handled, and the state, exit flag and answers that each leads to |
| Sessions.StoppedClientExits | rcn_peer.c:74-93 | a client that has handled a stop ends exactly when it has no relay left |
| Sessions.LoopGoesOn | rcn_daemon.c:174-180 | a loop goes on until a stop and the last relay's end |
| Sessions.RequestAlone | rcn_relay.c:223-351 | an unknown request is an error; without a peer, a pause of the server releases the keys and leaves the state alone |
| Sessions.RelayEffect | rcn_daemon.c:221-256 | the same for a whole wake-up of a relay |
| Sessions.RelayKeepsRelays | rcn_relay.c:78-88 | broadcasts and answers keep every relay's stream in order |
| Tables.PlayControl | rcn_device.c:373-392 | the updates sent replicate on any equal table what happens to the client's own |
| Tables.HandlerPlays | rcn_peer.c:10-40 | a handled message changes the server's table as replication expects; it fails only without devices |
| Tables.SendKeepsReplicated | rcn_device.c:162-209 | sending what one has done keeps the tables replicated |
| Tables.DeliverKeepsReplicated | rcn_peer.c:10-73 | handling the oldest message keeps them replicated |
| Tables.ServerPrefix | rcn_device.c:162-174 | the server's devices are the first of the client's, and the tables are equal when nothing is under way |
| Invariants.ReadKeepsInv | rcn_device.c:394-413 | a read of a physical device keeps the invariant, in whatever chunks |
| Invariants.WriteKeepsInv | rcn_daemon.c:251-256 | a write to a virtual device keeps the invariant |
| Invariants.ClientToggleKeepsInv | rcn_relay.c:223-263 | a pause or resume on the client keeps the invariant |
| Invariants.ServerToggleKeepsInv | rcn_relay.c:223-263 | a pause or resume on the server keeps the invariant |
| Invariants.DeliverKeepsInv | rcn_peer.c:95-127 | a message handled by the server keeps the invariant |
| Invariants.MoveKeepsGood | rcn_daemon.c:182-262 | no move of either daemon fails, and each keeps the invariant |
| Invariants.StartIsGood | rcn_device.c:149-174 | the invariant holds once the client has announced its devices |
| Invariants.ReachableIsGood | rcn_daemon.c:277-289 | the invariant holds in every reachable session |
| Convergence.CommandConverges | rcn_relay.c:223-263 | a command leaves the daemons converging if and only if the last inbound command is not its opposite |
| Convergence.FreshCommandConverges | rcn_relay.c:223-263 | with nothing inbound any command restores convergence |
| Convergence.DeliveryConverges | rcn_peer.c:42-73 | handling a message changes neither daemon's final state |
| Convergence.MoveConverges | rcn_daemon.c:182-262 | the exact effect of every move on convergence |
| Convergence.SessionConverges | rcn_relay.c:223-275 | a run without crossing commands ends with daemons that agree |
| Convergence.CrossingDiverges | rcn_relay.c:223-263 | a reachable session diverges, for any devices |
| Pausing.HeldWhenDrained | rcn_device.c:330-362 | once drained, a virtual device holds exactly the keys pressed since the last pause or resume |
| Pausing.MovePaced | rcn_device.c:373-387 | while only the client commands, it sends no input between a pause and a resume |
| Pausing.NoStuckKeys | rcn_relay.c:223-237 | while only the client commands, a drained device of a paused server holds no key |
| Pausing.NoInputWhilePaused | rcn_peer.c:32-49 | while only the client commands, no input is handled between a pause and a resume |
| Pausing.ServerPauseLeavesKeyHeld | rcn_relay.c:231-237 | a key press under way when the server is paused is queued behind the release of the keys |
| HeldKeys.DeliverAll | rcn_peer.c:10-30 | the announcements under way can be delivered, and create the devices announced, in order |
| HeldKeys.DrainDevice | rcn_daemon.c:251-256 | the writes of a virtual device empty its queue and change nothing else |
| HeldKeys.PausedServerHoldsKey | rcn_relay.c:231-237 | for any devices and any key of one of them, a run that ends with both daemons paused, nothing under way or queued, and the key held |
| Network.OwnTickRefines | rcn_daemon.c:182-262 | a wake-up of a device or relay is the session's move |
| Network.PeerTickRefines | rcn_daemon.c:182-262 | a wake-up of the peer's stream is at most one delivery |
| Network.NetRefinesSession | rcn_daemon.c:277-289 | every reachable net is a reachable session |
| Network.NetNeverFails | rcn_daemon.c:277-289 | no wake-up of a reachable net fails, a message half read or not |
| OneWay.OneWayNeedsNoCondition | rcn_daemon.c:277-289 | when only the client commands, the full-duplex condition always holds |
| OneWay.OneWayNeverFails | rcn_daemon.c:277-289 | nor does any wake-up of such a run fail |
| Progress.CanWrite | rcn_epoll.c:83-93 | a stream with something queued is armed for writing, and a write emits at least one byte of what is left and loses none |
| Progress.CanRead | rcn_epoll.c:83-93 | a stream with nothing queued is armed for reading and asks for at least one of the bytes that are there |
| Progress.WriteTick | rcn_daemon.c:182-262 | such a write does not fail, touches no other state and brings the run closer to its end |
| Progress.ReadTick | rcn_daemon.c:182-262 | so does a read of the server |
| Progress.NothingHalfRead | rcn_stream.c:187-197 | with nothing queued or under way, no message is left half read |
| Progress.MoveNoStop | rcn_relay.c:277-288 | a client that is not exiting has sent no stop |
| Progress.CanDrain | rcn_daemon.c:277-289 | everything under way to the server can be delivered by wake-ups in the armed directions |
| Progress.EverythingCanArrive | rcn_daemon.c:277-289 | the same for every reachable state, with equal tables in the end |
| Theorems.TablesReplicate | rcn_peer.c:10-30 | applying the messages under way to the server's table gives the client's; they are equal once delivered |
| Theorems.ListsAgree | rcn_relay.c:290-313 | once delivered, both lists show the same devices grabbed alike |
| Names.VirtualName | rcn_device.c:268-274 | the virtual name is the prefix and the physical name, cut off after 80 bytes |
| Names.NamesReplicate | rcn_peer.c:10-18 | each device of the server is the client's at the same place under its virtual name |
| Names.ListedNamesAgree | rcn_relay.c:290-313 | so both lists name the same devices |
| Reports.GrabsAreReportedFirst | rcn_relay.c:223-263 | a pause or resume is handled only when the table shows every device released or grabbed for it |
| Stops.MoveReaches | rcn_relay.c:277-288 | a stop of the server is under way to the client until the client is to exit |
| Stops.StopReachesClient | rcn_peer.c:74-93 | once everything for the client is handled it is to exit too, and ends exactly when it has no relay left |
| Stops.StopIsUnderWay | rcn_relay.c:277-288 | a client that exits by itself has a stop under way to the server |
| Stops.AcceptCounts | rcn_daemon.c:38-52 | a relay that connects takes the last place in both |
| Stops.HangUpCounts | rcn_epoll.c:95-121 | a relay that hangs up leaves the same place among the daemon's relays and in relay_streams |
| Stops.ExitIsClean | rcn_daemon.c:174-180 | when the loop ends no relay is left to tell or to free |
| Theorems.GrabsMatchState | rcn_device.c:190-209 | RUNNING means every device is grabbed and read, PAUSED that none is |
| Theorems.LookupIsExact | rcn_device.c:299-309 | the lookup of an existing id finds that device only |
| Theorems.LookupOfUnknown | rcn_device.c:299-309 | the lookup of an unknown id returns the last device |
| Theorems.Causality | rcn_peer.c:20-40 | every update or input handled names an existing device |
| Theorems.MotionIsConserved | rcn_device.c:311-328 | relative motions arrive exactly once and in order, and so do the displacements |
| Theorems.EndToEndReplay | rcn_device.c:394-413 | what is written to a virtual device is the script of the session that the net carries, up to stuttering, and the inputs in it are the first that were read |
| Theorems.ReplayAfterToggle | rcn_device.c:330-362 | after a pause or resume, what is written is what was before, the key-ups with a SYN, and then the inputs handled since |
| PlainRuns.MovePlain | rcn_relay.c:315-351 | a move that pauses or resumes nothing keeps both daemons running with no command under way |
| PlainRuns.PlainSession | rcn_daemon.c:277-289 | a run in which no relay changes a daemon's state is carried by a session without any pause or resume |
| PlainRuns.PlainReplay | rcn_device.c:394-413 | in such a run what is written is, up to stuttering, a prefix of what was read with a SYN behind each relative motion, and all of it once drained |
| NetConvergence.SpellsOnce | rcn_stream.c:131-150 | the bytes under way spell one sequence of messages only |
| NetConvergence.TickConverges | rcn_relay.c:223-275 | a relay's command leaves the daemons converging if and only if it does not cross its opposite; no other wake-up changes whether they converge |
| NetConvergence.NetRunConverges | rcn_relay.c:223-275 | in a run without crossing commands, from either side, the daemons agree whenever nothing is under way |
| Running.Pass | rcn_daemon.c:277-289 | one pass of a daemon object's loop is the net's wake-up |
| Running.RunDaemons | rcn_daemon.c:277-289 | the two daemon objects, run through any run of the net, end exactly where it does |
| Theorems.PausedHoldsNoKeys | rcn_device.c:330-362 | no drained virtual device of a paused server holds a key |
| Theorems.PausedHandlesNoInput | rcn_peer.c:32-49 | a paused server handles no input |
| Theorems.OneWayConverges | rcn_relay.c:223-275 | while only the client commands, the daemons agree whenever everything is delivered |
| Ownership.CloseKeepsOwned | rcn_epoll.c:95-121 | closing a relay takes it out of both arrays, once, and touches nothing else |
| Ownership.AddKeepsOwned | rcn_daemon.c:38-52 | accepting a relay puts it into both arrays |
| Ownership.RunKeepsOwned | rcn_epoll.c:33-121 | over any run of registrations, accepts and both kinds of close the arrays stay free of duplicates, and accepts and closes of a relay balance |
| Ownership.ExitLeavesNoRelays | rcn_daemon.c:174-180 | the cleanup after a normal end sees no relay |
| Ownership.StreamRegistry.AcceptUsock | rcn_daemon.c:38-52 | the arrays after an accept |
| Ownership.StreamRegistry.CloseRelay | rcn_relay.c:205-212 | removes the relay's pointer, if it is there |
| Ownership.StreamRegistry.CloseRemoveSimple | rcn_epoll.c:109-121 | removes and frees the stream, or fails when it is not registered |
| Ownership.StreamRegistry.CloseRemove | rcn_epoll.c:95-107 | does both for a relay, the latter for a device or the peer; fails and changes nothing for any other stream |
| Ownership.StreamRegistry.CloseEpollCtx | rcn_epoll.c:19-31 | the final cleanup frees every stream once and leaves the array empty |
| Ownership.FreeKeepsOwned | rcn_epoll.c:109-121 | freeing another stream takes it out of stream_ptrs only |
| Ownership.FindsPointer | rcn_util.c:169-182 | comparing the bytes of pointers finds the pointer |
| Args.HandleArg | rcn_arg.c:97-118 | a handler never leaves the index behind the word it was called for |
| Args.Parser.ArgPort | rcn_arg.c:134-150 | the port flag |
| Args.Parser.ArgHost | rcn_arg.c:152-165 | the server flag |
| Args.Parser.ArgDevices | rcn_arg.c:167-193 | takes words up to the next reserved one and steps back before it |
| Args.Parser.ArgFilter | rcn_arg.c:195-230 | takes at most four event names |
| Args.Parser.ArgDaemon | rcn_arg.c:232-257 | the last of the remaining subactions |
| Args.Parser.ArgHelp | rcn_arg.c:259-288 | the help flag and its topics |
| Args.Parser.ArgDebug | rcn_arg.c:290-299 | the debug level |
| Args.Parser.HandleWord | rcn_arg.c:97-118 | the loop over the table runs exactly one handler |
| Args.Parser.ParseArgs | rcn_arg.c:301-310 | parsing ends on every argument vector with the result of Parse, and succeeds only with every needed argument provided |
| Args.GroupParses | rcn_arg.c:134-193 | one flag with its values is consumed whole wherever it stands |
| Args.OrderDoesNotMatter | rcn_arg.c:97-193 | connect's groups in any order and spelling give one and the same context, complete |
| Grammar.SpellingNames | rcn_arg.c:232-257 | a subaction is named by its spelling and nothing else |
| Grammar.EventNamed | rcn_arg.c:195-230 | an event name may be written in any case |
| Grammar.AtoiReads | rcn_arg.c:134-150 | a number is read back from its decimal digits, and its negative from a sign before them |
| Grammar.PhraseParses | rcn_arg.c:97-299 | a phrase, wherever it stands, is parsed whole with its meaning |
| Grammar.PhraseFound | rcn_arg.c:97-118 | whatever a handler takes is a phrase |
| Grammar.ParserAccepts | rcn_arg.c:301-310 | the parser accepts exactly the sequences of phrases in which nothing needed is missing, with exactly their meaning |
| Grammar.ParserSound | rcn_arg.c:120-132 | what is accepted has all it needs, and each port, server, device list and subaction was given behind its flag |
| Grammar.ParserRejects | rcn_arg.c:97-299 | an unknown word, a flag not needed or given again, a missing or invalid value, and a missing argument are refused |

## Left out

- Framing.FramingRoundTrip: not claimed for runs that queue a message while another is half read on the same stream; LossIsExact says what holds there.
- Theorems.PausedHoldsNoKeys: claimed when only the client's relays command; PausedServerHoldsKey shows that it is false otherwise.
- PlainRuns.PlainReplay: a pause or resume adds key releases to what is written; with them only the general EndToEndReplay holds.
- Network.NetNeverFails: relays send none but the requests of the relay program; another header value ends the daemon with an error, as RelayHandler says.
- Streams.StreamStream: a virtual device takes one whole event per write, as uinput does; a physical device may be read in any chunks. A transfer on a closed item fails; the code checks for a complete one only, but removes a closed stream before it could be transferred again.
- DaemonContexts.DaemonContext: devices and relays hold their streams as values; that their pointers do not alias is Ownership's result, and that a stream in memory is such a value EpollStream's.
- DaemonContexts.DaemonContext.PauseCommand: on a client without a peer it ends as Past, where the code goes on to announce the released devices on the peer's stream, which is gone.
- DaemonContexts.DaemonContext.ResumeCommand: on a daemon without a peer it ends as Past, where the code goes on to queue for the peer's stream, which is gone or was never there.
- DaemonContexts.DaemonContext.StopCommand: on a daemon without a peer it ends as Past, where the code sets exit and tells the relays before it queues for the peer's stream, which is gone or was never there.
- DaemonContexts.DaemonContext.HandleMessage: a stop at the server ends as Past, where the code closes the devices and listens for another client.
- Several ready streams in one epoll batch at the daemon level: a pause may then remove a device's fd before its completed event is resolved, and re-arming it fails.
- The end of a session: a stop handled by the server, the loss of the peer, and what follows them; `Beyond` and `Left` mark these steps.
- A peer message whose body is shorter than its struct: the code reads beyond the buffer; the model takes it as an error. The daemons never send one.
- Unplugging a device, whose removal compares a device record with a pointer.
- Freeing the queue and buffers of a closed stream (`stream_close`), and the union's overlay of a message on an event.
- System calls: sockets, fork, ioctl, uinput, /proc, log files; a read or write moves one byte up to what was asked, or returns EAGAIN, end of file or an error.
- Allocation failure and overflow of size_t in buffer sizes; the device list must fit in size_t.
- Polling until a device has no active key before grabbing it (`drain_events`), random ids (distinct ids are assumed), the kernel's own filtering of events but for unsupported keys.
- `u_array_set` and `u_array_delete`, which nothing calls; printing of help, lists and device capabilities; the overflow of atoi.
