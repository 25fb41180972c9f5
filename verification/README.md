# WebHID for Firefox, verified

WebHID lets web pages talk to HID devices through a browser extension, a native
messaging host and a daemon that owns the devices.  This project models the parts of
it that keep shared state or move data across a boundary, and proves what they are for.
`dafny verify dfyconfig.toml` checks everything.

Each component has a specification as functions on values, laws about it as lemmas, and,
where the program changes state in place, a class or methods with the program's own
fields and loops, each proved to make exactly the transition the specification names.

## What is modelled

**The daemon's session manager** (`Lifecycle`, `LifecycleProofs`, `Daemon`,
`DaemonInvariant`, `DaemonProofs`, `DaemonRuns`, `DaemonEffects`, `DeviceManagers`).  `Lifecycle` holds
the maps under the `lifecycle` mutex and every transition made while it is held.
`Daemon` is the concurrent whole: each section under the mutex is one step, and so is each
step of an opener, each item a worker takes, the death of a reader, and each single action
a thread does after it released the mutex.  They interleave in any order.  An
`Arc<AtomicBool>` is a cell number; all cells ever issued are remembered as history, so a
law can speak of capabilities that are no longer stored.  `DaemonEffects` reads what each
call does off the fields.  `DeviceManagers` is the class.

**The descriptor codec** (`Hid`, `Tlv`, `TlvProofs`, `TlvCodec`).  The encoder of the
collection tree, the daemon's decoder and the extension's mirror of it, as one decoder with
a dialect.

**From report descriptor to protection** (`Fields`, `FieldsProofs`, `FieldsConversion`,
`Tree`, `TreeProofs`, `TreeBuilder`, `Blocklist`, `ReportBlocking`, `BlockingProofs`,
`FallbackProofs`, `ReportScan`).  Aggregation of adjacent fields, the collection tree, the
two ways to build the association map, pruning, and the tests of the reader and of the write
path.

**The bootstrap gate** (`Bootstrap`, `BootstrapProofs`, `BootstrapRuns`,
`BootstrapEffects`, `BootstrapGates`).  Candidates, challenges, deadlines and the
predecessor's cleanup.

**Report and request delivery** (`Wire`, `Sender`, `FrameStream`, `WorkerTable`).  The
batching loop with its codec and parser, the reader of length-prefixed frames, the page
worker's request table.

**Token ownership in the browser** (`Ownership`, `OwnershipProofs`, `OwnershipEffects`,
`OwnershipState`).  Asynchronous closes as a start and a finish step.

## Assumptions

- Session tokens are fresh and the hash of a token is injective.
- The opener returns the device id it was asked for.
- A reader whose line was never published stops without a read, because its start gate opens
  only after its stop flag is set.
- Transports present the generation and capability they were granted, and a frame key of a
  bridge starts with that bridge's id, which holds no slash.
- A port is offered to the gate once; the browser's current identity does not change
  within one event; injected effects do not call back into the gate.
- Bit positions, lengths of encoded nodes and lengths of written frames are below 2^32.
- A reader's report is at most 4096 bytes, the cap of its buffer.

## Where the code and its claims differ

- `session_transport_active` is not evidence of a capability.  Setting the plane a session
  already has revokes the capability and leaves the answer true.  `SamePlaneRevokes` shows
  it for every state, `ActiveWithoutCapability` reaches it, `TransportActiveIff` says exactly
  when the answer is backed.
- A dying reader tears down whichever lifetime its device has at that moment, its own or
  not: `ReaderTakesPresentEntry` says exactly when it is another's, and
  `ReaderTakesAnotherLifetime` is a run in which it is.  The laws of the maps hold all the
  same.
- The map of the parsed descriptor skips constant fields, so it can know less than the tree
  shows.  The tree's map covers it, not the reverse.  Pruning therefore does not hide every
  device that is blocked as a whole: `BlockedDeviceLeft` is one it leaves unchanged,
  `BlockedDescriptorIsHidden` is the exact condition.  Pages do not see it all the same,
  because enumeration drops such devices before pruning
  (`crates/webhid-daemon/src/hid.rs:162`).
- `detect_contiguous_range` computes the upper bound in 16 bits.  It keeps the usages
  exactly when a contiguous list ends within its page; `OverflowExample` is a list it loses.
- An array's usage range is written with the page of its lower bound on both sides;
  `ArrayUsagesKept` says exactly when that keeps it, `PageExample` is a range it empties.
- A batch entry's length is cut to 16 bits.  Batches are read back exactly when each
  entry fits, which the capped buffer guarantees.
- `drain_available` goes on with the rest of the loop after a failed flush; no report is
  lost by that.
- When `accept` succeeds and `accepted` throws, the port is rejected although its context
  was created; the gate's laws count it as rejected.
- A candidate whose deadline passes leaves its queue at once only if it is the head; behind
  another it stays there, closed, until it gets to the head.  `DeadlineLands` says exactly
  when, `SilentBehindHead` is a run in which it stays.  It holds up nobody: `FirstLiveGetsIn`.

## Model

| member | source | states |
|---|---|---|
| DaemonRuns.MapsAgree | crates/webhid-daemon/src/device_mgr.rs:457-696 | after any run of the daemon: a device has an entry iff some session is on it; the hash map holds exactly the hash of each live session and leads to that session; a capability is stored only for a live session outside NM mode; an NM binding exists iff the client has a sink and an NM session on the device, and it leads to the command channel of the device's present entry |
| DaemonRuns.CounterLaw | crates/webhid-daemon/src/device_mgr.rs:639-649 | the counter of non-NM sessions is the number of live sessions outside NM mode plus the decrements that teardowns still owe; so no owed decrement exceeds it, and with nothing owed it is positive iff such a session exists |
| DaemonRuns.CancellationLaw | crates/webhid-daemon/src/device_mgr.rs:1730-1736 | every token ever registered is live, or its cancel signal was sent, or one unfinished teardown will send it, and never two of these |
| DaemonRuns.CapabilityLaw | crates/webhid-daemon/src/device_mgr.rs:73-99 | every capability ever issued is valid iff it is the one stored for its token, and then its session is live on its device, in its mode, at its generation |
| DaemonRuns.OneTransportPerSession | crates/webhid-daemon/src/device_mgr.rs:591-623 | two valid capabilities of one session are the same capability |
| DaemonRuns.TransportActiveIff | crates/webhid-daemon/src/device_mgr.rs:1549-1568 | some valid capability carries a given generation iff `session_transport_active` holds for it and a capability is stored for the token at all |
| DaemonRuns.SamePlaneRevokes | crates/webhid-daemon/src/device_mgr.rs:1469-1473 | setting the plane a session is already on leaves its mode and generation, so `session_transport_active` stays true, while every capability of the session is revoked |
| DaemonRuns.ActiveWithoutCapability | crates/webhid-daemon/src/device_mgr.rs:1439-1478 | a run from the empty daemon that ends with `session_transport_active` true and no capability stored: the converse of CapabilityLaw fails |
| DaemonRuns.RevokedForever | crates/webhid-daemon/src/device_mgr.rs:94-98 | a revoked capability, or the flag of a dropped NM binding, is never valid again in any continuation of any run, and keeps the grant it was issued for |
| DaemonRuns.ConnectGrants | crates/webhid-daemon/src/device_mgr.rs:1482-1544 | in any reachable state a connect to a live session yields a valid capability of the next generation, and every earlier one of the session is revoked |
| DaemonRuns.ValidCapabilityWorks | crates/webhid-daemon/src/device_mgr.rs:824-892 | in any reachable state with an idle worker a request under a valid capability finds the entry, is stamped, queued and performed |
| DaemonRuns.DisconnectIffStored | crates/webhid-daemon/src/device_mgr.rs:1570-1654 | `ws_disconnect` or `wt_disconnect` with a granted generation and capability changes the state iff that capability is still valid; then the session is back in NM mode and nothing is stored for it |
| DaemonRuns.LateDisconnect | crates/webhid-daemon/src/device_mgr.rs:1578-1606 | once a transport is superseded, its disconnect is a no-op however late it comes and whatever reconnects, plane switches and teardowns happened in between |
| DaemonRuns.PerformedIsAuthorised | crates/webhid-daemon/src/device_mgr.rs:307-350 | a worker performs a command iff its flag is valid at the `is_current` check; then the stored capability of a live session in that mode and generation, or the client's current NM binding backed by a sink and an NM session, covers it, and the worker is that of the device's present entry; else it is rejected |
| DaemonRuns.ValidIsAuthorised | crates/webhid-daemon/src/device_mgr.rs:127-146 | any valid flag stands for an authorisation that is current in the maps |
| DaemonRuns.DetachedForever | crates/webhid-daemon/src/device_mgr.rs:406-431 | a channel that is no entry and that no opener is about to publish stays so, and no command on it, queued before or sent later, is performed |
| DaemonRuns.LosingTheEntryDetaches | crates/webhid-daemon/src/device_mgr.rs:1379-1388 | any step after which a device no longer has the entry it had, be it a close, a forced close or a dying reader, detaches that entry's channel |
| DaemonRuns.LostEntryPerformsNothing | crates/webhid-daemon/src/device_mgr.rs:406-431 | hence in every continuation after such a step no command on the old channel is performed |
| DaemonRuns.NoEntryIsItsLine | crates/webhid-daemon/src/device_mgr.rs:1163-1172 | along every continuation, no device's entry is the channel of an opener whose reservation was invalidated |
| DaemonRuns.OneOutcome | crates/webhid-daemon/src/device_mgr.rs:360-374 | a request that was performed, rejected, dropped or denied keeps that outcome for ever |
| DaemonRuns.QueuedOnce | crates/webhid-daemon/src/device_mgr.rs:728-734 | a queued request stands at exactly one place of exactly one queue, whose worker is running |
| DaemonRuns.OneFirstOpen | crates/webhid-daemon/src/device_mgr.rs:939-1002 | two openers that hold a reservation for the same device are the same opener |
| DaemonRuns.NoLostWakeup | crates/webhid-daemon/src/device_mgr.rs:978-1029 | whoever waits does so for a reservation whose opener has yet to finish and notify, and that notification wakes it |
| DaemonRuns.InvalidatedNeverInstalls | crates/webhid-daemon/src/device_mgr.rs:1073-1172 | an opener whose reservation `force_close` invalidated before publication never registers its session and never reports success; the channel it had built is never an entry of any device, and if it had built none it never builds one |
| DaemonRuns.DoomedRun | crates/webhid-daemon/src/device_mgr.rs:1671-1680 | the same along every continuation: such an opener only passes through phases that end refused |
| DaemonRuns.ReaderTakesPresentEntry | crates/webhid-daemon/src/device_mgr.rs:465-518 | a dying reader changes the registry iff its device has an entry, then takes that entry with exactly its sessions, and takes another lifetime than its own iff the entry is not its channel |
| DaemonRuns.ReaderTakesAnotherLifetime | crates/webhid-daemon/src/device_mgr.rs:1254-1278 | a run from the empty daemon, opened, forcibly closed and opened again, after which the first reader takes down the second lifetime and its session |
| DaemonRuns.OpensAlone | crates/webhid-daemon/src/device_mgr.rs:939-1184 | a first open that nobody interferes with ends with a new channel published as the entry, its reader started and its session registered |
| DaemonRuns.StepEntries | crates/webhid-daemon/src/device_mgr.rs:1133-1162 | an entry that exists after a step existed before on the same channel, or is the channel an opener had just built |
| DaemonRuns.RunKeeps | crates/webhid-daemon/src/device_mgr.rs:257-284 | the invariant of all maps, queues, openers and unfinished teardowns holds after every run |
| DaemonEffects.ModeCallLands | crates/webhid-daemon/src/device_mgr.rs:1439-1478 | in any reachable state the owner's call puts the session on the plane it names and revokes exactly that session's capabilities; anybody else's changes nothing |
| DaemonEffects.ConnectCallLands | crates/webhid-daemon/src/device_mgr.rs:1482-1544 | a connect puts a live session of the device on its plane at the next generation of that plane, the other untouched, with a capability never issued before; any other connect changes nothing |
| DaemonEffects.DisconnectCallLands | crates/webhid-daemon/src/device_mgr.rs:1570-1654 | a disconnect with the stored capability puts exactly that session back on NM; with any other it changes nothing |
| DaemonEffects.CloseCallLands | crates/webhid-daemon/src/device_mgr.rs:1335-1400 | the owner's close takes the session, its hash and its capability and cancels it, and iff no other session is on the device the entry too, whose line is then to be stopped; a foreign owner's or device's close changes nothing |
| DaemonEffects.ForceCloseLands | crates/webhid-daemon/src/device_mgr.rs:457-518 | a forced close takes the entry, sessions, hashes, capabilities and bindings of the device and leaves every other device's as they are |
| DaemonEffects.ForceCloseOwes | crates/webhid-daemon/src/device_mgr.rs:1669-1741 | it leaves one teardown that cancels exactly those sessions, subtracts exactly those not in NM mode and stops exactly the entry's line; the opener in flight is invalidated and all who wait for it are woken |
| DaemonEffects.TurnsOfOpen | crates/webhid-daemon/src/device_mgr.rs:939-1031 | one turn of the loop in `open` grants iff there is an entry and refuses iff it was woken and finds neither entry nor reservation; the other cases wait, try again or reserve |
| DaemonEffects.JoinsTheEntry | crates/webhid-daemon/src/device_mgr.rs:1187-1227 | an open of a device with an entry adds exactly one session, in NM mode, at generation zero, and returns granted |
| DaemonEffects.WaiterJoins | crates/webhid-daemon/src/device_mgr.rs:978-1031 | who waits for a first open that succeeds joins its entry: both return granted, each with its own session |
| DaemonEffects.OpenAlwaysReturns | crates/webhid-daemon/src/device_mgr.rs:939-1031 | no open hangs: from every reachable state each can return, whoever holds the reservation |
| DaemonEffects.Finishes | crates/webhid-daemon/src/device_mgr.rs:1002-1031 | whoever holds a reservation can return, and then the reservation is gone and all who waited for it are awake |
| DaemonEffects.NmLetsThrough | crates/webhid-daemon/src/device_mgr.rs:736-823 | an NM request is let through iff the client has a sink and an NM session on the device, and then goes to the current entry under a valid flag |
| DaemonEffects.NmSessionWorks | crates/webhid-daemon/src/device_mgr.rs:736-892 | with an idle worker the request of a client that has a sink and an NM session is performed |
| DaemonEffects.SinkCallsLand | crates/webhid-daemon/src/device_mgr.rs:553-590 | registering a sink binds the client to exactly the devices it has an NM session on, unregistering to none; sessions stay as they are |
| DaemonEffects.StopIsObeyed | crates/webhid-daemon/src/device_mgr.rs:406-431 | stopping a line works however full its queue is: the epoch is bumped, the worker ends, and no request is left waiting in the queue |
| DaemonProofs.StepKeeps | crates/webhid-daemon/src/device_mgr.rs:257-284 | each of the sixteen kinds of step keeps that invariant |
| DaemonProofs.StepTracks | crates/webhid-daemon/src/device_mgr.rs:94-98 | in every step flags keep their meaning, none is revived, and a device with a valid flag keeps its channel |
| DaemonProofs.ForceCloseKeeps | crates/webhid-daemon/src/device_mgr.rs:1669-1741 | the locked part of `force_close`, with its decrement and cancels still owed, keeps the invariant |
| DaemonProofs.ReaderDiesKeeps | crates/webhid-daemon/src/device_mgr.rs:1254-1278 | a dying reader, whatever lifetime its device has by then, keeps the invariant |
| DaemonProofs.CloseEventKeeps | crates/webhid-daemon/src/device_mgr.rs:1335-1400 | `close` keeps the invariant, including the teardown of the last session's entry |
| DaemonProofs.TailStepKeeps | crates/webhid-daemon/src/device_mgr.rs:1730-1739 | each single action after the mutex is released keeps the invariant, in any interleaving |
| DaemonProofs.OpenerStepKeeps | crates/webhid-daemon/src/device_mgr.rs:939-1184 | every step of every opener keeps the invariant |
| DaemonProofs.OpenPhysicalIsAlone | crates/webhid-daemon/src/device_mgr.rs:1073-1090 | until an opener publishes, its device has no entry and the reservation is its own; so the registrations inside `open_physical` before publication find no entry |
| DaemonProofs.OpenerRegistry | crates/webhid-daemon/src/device_mgr.rs:1133-1162 | a step of an opener leaves the registry alone, or admits its session to an existing entry, or publishes its own entry, the last only with an uninvalidated reservation |
| DaemonProofs.RequestStepKeeps | crates/webhid-daemon/src/device_mgr.rs:824-910 | looking up a binding or entry, reading the epoch and sending the command keep the invariant |
| DaemonProofs.WorkerStepKeeps | crates/webhid-daemon/src/device_mgr.rs:307-350 | taking a command or a shutdown off the queue keeps the invariant |
| DaemonProofs.TracksOf | crates/webhid-daemon/src/device_mgr.rs:654-696 | a registry change that keeps history and channels never lets a valid flag lead to another channel |
| LifecycleProofs.SetModeKeeps | crates/webhid-daemon/src/device_mgr.rs:1439-1478 | `set_dataplane_mode` keeps all map laws and the counter law, revives no flag and only adds history |
| LifecycleProofs.ConnectKeeps | crates/webhid-daemon/src/device_mgr.rs:1482-1544 | the same for `ws_connect` and `wt_connect`, whose new grant no earlier one equals |
| LifecycleProofs.DisconnectKeeps | crates/webhid-daemon/src/device_mgr.rs:1570-1654 | the same for both disconnects |
| LifecycleProofs.CloseKeeps | crates/webhid-daemon/src/device_mgr.rs:1335-1400 | the same for `close`, with and without other sessions on the device |
| LifecycleProofs.DetachKeeps | crates/webhid-daemon/src/device_mgr.rs:457-518 | a whole device going keeps the map laws; the counter is then too high by exactly its sessions outside NM mode |
| LifecycleProofs.RegisterKeeps | crates/webhid-daemon/src/device_mgr.rs:1187-1227 | a fresh token registered on a device with an entry keeps all laws |
| LifecycleProofs.InstallKeeps | crates/webhid-daemon/src/device_mgr.rs:1149-1159 | a new entry and its first session together keep all laws |
| LifecycleProofs.RegisterSinkKeeps | crates/webhid-daemon/src/device_mgr.rs:553-570 | a new sink keeps all laws whatever order the client's devices are refreshed in |
| LifecycleProofs.UnregisterSinkKeeps | crates/webhid-daemon/src/device_mgr.rs:572-589 | a sink going keeps all laws |
| LifecycleProofs.RefreshRestores | crates/webhid-daemon/src/device_mgr.rs:654-696 | a refresh repairs the one binding a change may have upset: it then exists iff the client is entitled, on the present channel |
| LifecycleProofs.RefreshAllRestores | crates/webhid-daemon/src/device_mgr.rs:553-570 | refreshing the listed devices in any order repairs every binding of the client |
| DeviceManagers.DeviceManager.HasNmSessionForClient | crates/webhid-daemon/src/device_mgr.rs:1657-1665 | true iff some active NM session of this client is on the device |
| DeviceManagers.DeviceManager.AnyActiveOn | crates/webhid-daemon/src/device_mgr.rs:1367-1369 | true iff some active session is on the device |
| DeviceManagers.DeviceManager.DevicesOfClient | crates/webhid-daemon/src/device_mgr.rs:559-566 | exactly the devices of the client's active sessions |
| DeviceManagers.DeviceManager.SessionsOn | crates/webhid-daemon/src/device_mgr.rs:1681-1694 | exactly the tokens on the device, and how many of them are outside NM mode |
| DeviceManagers.DeviceManager.GetDeviceByWsAuth | crates/webhid-daemon/src/device_mgr.rs:1774-1787 | finds a device and token iff a live session has this hash, and then that session's |
| DeviceManagers.DeviceManager.ReplaceTransportValidity | crates/webhid-daemon/src/device_mgr.rs:591-601 | stores a fresh valid capability and revokes the one it replaces |
| DeviceManagers.DeviceManager.RetainValidity | crates/webhid-daemon/src/device_mgr.rs:1708-1721 | revokes and forgets exactly the capabilities of the given tokens |
| DeviceManagers.DeviceManager.RetainHashes | crates/webhid-daemon/src/device_mgr.rs:1701-1707 | drops exactly the hashes of the given tokens |
| DeviceManagers.DeviceManager.InvalidateNmHotForDevice | crates/webhid-daemon/src/device_mgr.rs:625-637 | drops and invalidates exactly the bindings of the device |
| DeviceManagers.DeviceManager.InvalidateNmHotForClient | crates/webhid-daemon/src/device_mgr.rs:578-588 | drops and invalidates exactly the bindings of the client |
| DeviceManagers.DeviceManager.RefreshNmHotLocked | crates/webhid-daemon/src/device_mgr.rs:654-696 | drops the binding and, for a client with sink, session and entry, makes a new one on the entry's channel |
| DeviceManagers.DeviceManager.RegisterNmSink | crates/webhid-daemon/src/device_mgr.rs:553-570 | adds the sink and refreshes each device of the client exactly once |
| DeviceManagers.DeviceManager.UnregisterNmSink | crates/webhid-daemon/src/device_mgr.rs:572-589 | removes the sink and its bindings |
| DeviceManagers.DeviceManager.CloseSession | crates/webhid-daemon/src/device_mgr.rs:1335-1400 | the transition; each refusal exactly for a foreign device or owner, and then, or for a token unknown or closed, nothing changes; otherwise exactly this session, its hash and its capability go, with the entry to stop exactly when it was the last session |
| DeviceManagers.DeviceManager.SetDataplaneMode | crates/webhid-daemon/src/device_mgr.rs:1439-1478 | an unknown mode, an unknown token, a closed session, a foreign device and a foreign owner each get their own error, in the order the source tests them, and change nothing; otherwise "nm", "ws" and "wt" put exactly this session in NM, WS and WT, its capability is gone, and the binding is refreshed |
| DeviceManagers.DeviceManager.WsConnect | crates/webhid-daemon/src/device_mgr.rs:1482-1511 | granted iff the session is live and of this device: then exactly this session is in WS at its next generation with the fresh capability stored, which is what is returned; else nothing changes |
| DeviceManagers.DeviceManager.WtConnect | crates/webhid-daemon/src/device_mgr.rs:1515-1544 | the same for WT and its own generation |
| DeviceManagers.DeviceManager.WsDisconnect | crates/webhid-daemon/src/device_mgr.rs:1570-1611 | puts exactly this session in NM without a capability iff device, mode, generation and stored capability all still match; else nothing changes |
| DeviceManagers.DeviceManager.WtDisconnect | crates/webhid-daemon/src/device_mgr.rs:1613-1654 | the same for WT and its own generation |
| DeviceManagers.DeviceManager.DetachLocked | crates/webhid-daemon/src/device_mgr.rs:1681-1728 | removes everything of the device; returns the sessions to cancel, the owed decrement and the entry to stop |
| DeviceManagers.DeviceManager.DetachDeadReaderLifetime | crates/webhid-daemon/src/device_mgr.rs:457-518 | nothing when the device has no entry; otherwise takes down the lifetime the device has now, the reader's own or not |
| DeviceManagers.DeviceManager.ForceCloseLocked | crates/webhid-daemon/src/device_mgr.rs:1669-1729 | the same teardown; a first open in flight is invalidated and the waiters of its reservation are woken |
| DeviceManagers.DeviceManager.RegisterSessionLocked | crates/webhid-daemon/src/device_mgr.rs:1187-1227 | registers iff the device has an entry; with the refresh that follows it is the modelled registration |
| DeviceManagers.DeviceManager.TryOpen | crates/webhid-daemon/src/device_mgr.rs:947-980 | one pass of the loop: joins iff there is an entry, waits on the reservation there is, or takes a new one above all earlier |
| DeviceManagers.DeviceManager.AfterWait | crates/webhid-daemon/src/device_mgr.rs:982-1001 | a woken opener joins, goes round again or fails |
| DeviceManagers.DeviceManager.PublishEntry | crates/webhid-daemon/src/device_mgr.rs:1133-1162 | publishes only while the reservation is current and not invalidated and no entry appeared |
| DeviceManagers.DeviceManager.CloseAllForClient | crates/webhid-daemon/src/device_mgr.rs:1404-1427 | exactly the client's sessions are gone and every other session is as it was |
| TlvProofs.RoundTrip | crates/webhid/src/collections_tlv.rs:491-525 | for every forest whose nodes fit 32-bit lengths, either decoder reads the encoder's whole blob to its last byte and returns the normal form of the forest |
| TlvProofs.SameBytesIffSameNorm | crates/webhid/src/collections_tlv.rs:88-211 | two forests have the same bytes iff they have the same normal form: that is exactly what the format cannot carry |
| TlvProofs.NormCollectionsBytes | crates/webhid/src/collections_tlv.rs:88-211 | normalising changes no byte of the encoding |
| TlvProofs.NormIdempotent | crates/webhid/src/collections_tlv.rs:213-489 | a second trip changes nothing more |
| TlvProofs.DialectsAgree | addon/js/utils/descriptor-tlv.js:26-240 | on every blob of the daemon's encoder both decoders consume everything and return the same tree up to absent against empty usage lists |
| TlvProofs.DialectsDiffer | addon/js/utils/descriptor-tlv.js:152-167 | a field differs between the decoders iff it is not a range and has no usages, and then only in that list |
| TlvProofs.VarintRoundTrip | crates/webhid/src/collections_tlv.rs:55-81 | every u32 takes one to five bytes and is read back, with the cursor just behind it |
| TlvProofs.VarintReads | crates/webhid/src/collections_tlv.rs:68-81 | whatever was read so far, the shifting and or-ing of the remaining bytes adds the number they were written for |
| TlvProofs.OrDisjoint | crates/webhid/src/collections_tlv.rs:68-81 | or-ing a number below 2^k with a multiple of 2^k adds them |
| TlvProofs.LeRoundTrip | crates/webhid/src/collections_tlv.rs:276-280 | k little-endian bytes carry every number below 256 to the k |
| TlvProofs.BitsRoundTrip | crates/webhid/src/collections_tlv.rs:136-156 | packed flags unpack to the same flags |
| TlvProofs.UnitTagRoundTrip | crates/webhid/src/collections_tlv.rs:39-53 | known unit systems survive, any other becomes `reserved` |
| TlvProofs.UnitReads | crates/webhid/src/collections_tlv.rs:283-287 | a unit comes back with its exponents cut to signed bytes and its system normalised |
| TlvProofs.AttributesRead | crates/webhid/src/collections_tlv.rs:313-356 | the 24 attribute bytes and the flags restore all attributes |
| TlvProofs.FixedReads | crates/webhid/src/collections_tlv.rs:313-356 | the fixed part of a field is read back and exactly its bytes are consumed |
| TlvProofs.UsagesRead | crates/webhid/src/collections_tlv.rs:363-398 | a usage list or range is read back in normal form and exactly its bytes are consumed |
| TlvProofs.StringsRead | crates/webhid/src/collections_tlv.rs:402-414 | the strings are read back and exactly their bytes are consumed |
| TlvProofs.FieldReads | crates/webhid/src/collections_tlv.rs:416-463 | a field is read back in normal form, wherever its node says it ends |
| TlvProofs.ItemsRead | crates/webhid/src/collections_tlv.rs:261-272 | the fields of a report are read back in order up to the node's end |
| TlvProofs.ReportReads | crates/webhid/src/collections_tlv.rs:261-272 | a report node reads back whole |
| TlvProofs.ReportsRead | crates/webhid/src/collections_tlv.rs:213-259 | a run of report nodes is added, in order, to the list its tag names |
| TlvProofs.CollectionsRead | crates/webhid/src/collections_tlv.rs:213-259 | a run of collection nodes is added, in order, to the children |
| TlvProofs.CollectionReads | crates/webhid/src/collections_tlv.rs:213-259 | a collection reads back whole, consuming exactly its bytes at this level |
| TlvProofs.RootsRead | crates/webhid/src/collections_tlv.rs:504-525 | from any node boundary the remaining roots are read to the end |
| TlvCodec.Buffer.WriteVarint | crates/webhid/src/collections_tlv.rs:55-66 | appends the varint |
| TlvCodec.Buffer.EncodeField | crates/webhid/src/collections_tlv.rs:186-211 | appends the node of the field, as the decoder lemmas read it |
| TlvCodec.Buffer.EncodeFieldUsages | crates/webhid/src/collections_tlv.rs:160-174 | appends the range bounds, 0 for a missing one, or the counted usage list |
| TlvCodec.Buffer.EncodeFieldStrings | crates/webhid/src/collections_tlv.rs:177-184 | appends the counted, length-prefixed strings |
| TlvCodec.Buffer.EncodeReport | crates/webhid/src/collections_tlv.rs:123-132 | appends the node of the report |
| TlvCodec.Buffer.EncodeCollection | crates/webhid/src/collections_tlv.rs:88-121 | appends the node of the collection and all below it |
| TlvCodec.EncodeFieldFlags | crates/webhid/src/collections_tlv.rs:136-156 | each flag sits at its own bit |
| TlvCodec.UnitSystemToTag | crates/webhid/src/collections_tlv.rs:39-46 | the position of the system in the table, else 6 |
| TlvCodec.Decoder.ReadVarint | crates/webhid/src/collections_tlv.rs:68-81 | the shifting loop computes the varint at the cursor, of any length and with 32-bit shifts, and moves behind it, or crashes at the end of the data |
| TlvCodec.Decoder.ReadUsages | addon/js/utils/descriptor-tlv.js:152-167 | the usage reader, in either dialect, with its truncation cases |
| TlvCodec.Decoder.ReadStrings | addon/js/utils/descriptor-tlv.js:173-182 | the string reader, in either dialect |
| TlvCodec.Decoder.ReadField | crates/webhid/src/collections_tlv.rs:416-463 | the field reader; a field the daemon finds truncated becomes a default field |
| TlvCodec.Decoder.ReadNode | crates/webhid/src/collections_tlv.rs:471-489 | the node reader; whatever the value held, the cursor continues at the node's end |
| TlvCodec.Decoder.ReadReport | addon/js/utils/descriptor-tlv.js:114-122 | the report reader |
| TlvCodec.Decoder.ReadCollection | crates/webhid/src/collections_tlv.rs:213-259 | the collection reader |
| TlvCodec.Decoder.ReadRoots | addon/js/utils/descriptor-tlv.js:26-240 | the loop over the roots |
| TlvCodec.Serialize | crates/webhid/src/collections_tlv.rs:491-502 | the blob is the encoding of the forest |
| TlvCodec.Deserialize | crates/webhid/src/collections_tlv.rs:504-525 | whatever encodable forest a blob was made from, its normal form comes out |
| FieldsProofs.AggregationIsLossless | crates/webhid-daemon/src/descriptor/fields.rs:206-250 | expanding the aggregated fields gives back every field's size, usage and attributes in order iff no aggregated run of usages leaves its 16 bits and no usage range of an array its page |
| FieldsProofs.BitsConserved | crates/webhid-daemon/src/descriptor/fields.rs:206-250 | the total number of bits is conserved, overflow or not |
| FieldsProofs.DetectIsLossless | crates/webhid-daemon/src/descriptor/fields.rs:124-141 | `detect_contiguous_range` keeps every usage iff the list is not a contiguous one that runs past its page |
| FieldsProofs.OverflowExample | crates/webhid-daemon/src/descriptor/fields.rs:124-141 | the list ffff, ffff of one page is taken for a range and its second usage is lost |
| FieldsProofs.ExpandVariable | crates/webhid-daemon/src/descriptor/fields.rs:88-122 | one aggregated field expands to its run iff the run's usages do not overflow, and always to as many controls |
| FieldsProofs.RunFields | crates/webhid-daemon/src/descriptor/fields.rs:211-232 | a run is shorter than 2^32 and all its fields share size and attributes |
| FieldsProofs.ExpandSingle | crates/webhid-daemon/src/descriptor/fields.rs:164-204 | a constant field expands to itself, an array iff its range stays in one page; both keep their bits |
| FieldsProofs.ArrayUsagesKept | crates/webhid-daemon/src/descriptor/fields.rs:146-162 | an array keeps its declared usages iff they are not a range whose bounds lie on two pages |
| FieldsProofs.PageExample | crates/webhid-daemon/src/descriptor/fields.rs:147-154 | a range of 65536 usages from page 1 to page 2 comes out empty |
| FieldsConversion.ConvertFieldsAggregate | crates/webhid-daemon/src/descriptor/fields.rs:206-250 | the two index loops compute the aggregation, and the cuts returned with it say where: neighbouring fields land in one output field iff both are variable, the second starts where the first ends, and size and attributes are equal |
| FieldsConversion.AggregateRun | crates/webhid-daemon/src/descriptor/fields.rs:211-232 | the inner loop ends at the first field that is not variable, adjacent to and alike the one before it, and makes one field of those passed |
| FieldsProofs.NeighboursMerge | crates/webhid-daemon/src/descriptor/fields.rs:206-250 | for all fields: two neighbours land in the same output field iff both are variable, adjacent, of one size and with equal attributes; each output field is made from exactly its group |
| FieldsProofs.CutsDecide | crates/webhid-daemon/src/descriptor/fields.rs:206-250 | no other output does that: grouping by this rule determines the result |
| FieldsProofs.TakenIsMaximal | crates/webhid-daemon/src/descriptor/fields.rs:211-232 | a run only joins alike neighbours and ends at the first pair that is not |
| TreeProofs.BuildPlacesEachOnce | crates/webhid-daemon/src/descriptor/tree.rs:148-184 | for every descriptor `build` ends and places each collection id found on a resolved chain exactly once in the forest, no other, each with its own data and reports; without any it yields one bare collection |
| TreeProofs.DescriptorPlaced | crates/webhid-daemon/src/descriptor/tree.rs:39-146 | after all reports every node is reached from the roots exactly once and children are younger than parents |
| TreeProofs.NodeIffNamed | crates/webhid-daemon/src/descriptor/tree.rs:39-71 | a node exists iff its id is on the resolved chain of some field |
| TreeProofs.GrownIsPlaced | crates/webhid-daemon/src/descriptor/tree.rs:39-71 | one more node, as root or under an existing parent, keeps every node reached exactly once |
| TreeProofs.GrownVisits | crates/webhid-daemon/src/descriptor/tree.rs:169-184 | the walk over old nodes meets the new one as often as its parent |
| TreeProofs.PreorderCounts | crates/webhid-daemon/src/descriptor/tree.rs:169-184 | the forest lists an id as often as the walk from the roots meets it |
| TreeProofs.ForestMirrors | crates/webhid-daemon/src/descriptor/tree.rs:169-184 | each built collection carries its node's data and reports, in walk order |
| TreeProofs.BucketKeepsOrder | crates/webhid-daemon/src/descriptor/tree.rs:109-126 | a bucket holds exactly the fields that land in its collection, in their order |
| TreeProofs.FieldLandsOnce | crates/webhid-daemon/src/descriptor/tree.rs:81-126 | a field lands in the innermost collection of its own or borrowed chain and in no other; in none iff no field of the report has a chain |
| TreeBuilder.CollectionTreeBuilder.EnsureChain | crates/webhid-daemon/src/descriptor/tree.rs:39-71 | makes the missing nodes of a chain, outermost first, each linked to its parent |
| TreeBuilder.CollectionTreeBuilder.AddReport | crates/webhid-daemon/src/descriptor/tree.rs:73-146 | nodes for every chain, then one report per non-empty bucket added to its collection |
| TreeBuilder.CollectionTreeBuilder.CollectBuckets | crates/webhid-daemon/src/descriptor/tree.rs:81-126 | one bucket per innermost collection, in first-seen order, holding exactly its fields |
| TreeBuilder.CollectionTreeBuilder.BuildNode | crates/webhid-daemon/src/descriptor/tree.rs:169-184 | ends on every builder and returns the subtree of the id, or nothing for an unknown id |
| TreeBuilder.CollectionTreeBuilder.Build | crates/webhid-daemon/src/descriptor/tree.rs:148-167 | the forest below the roots, or one bare collection |
| TreeBuilder.ResolveChain | crates/webhid-daemon/src/descriptor/tree.rs:81-107 | the field's own chain, else that of the nearest earlier field that has one, else of the nearest later one, and none only if no field has any |
| TreeProofs.BorrowsNearest | crates/webhid-daemon/src/descriptor/tree.rs:81-107 | a field goes by its own collections, or those of the nearest field before it, or of the nearest after it if none before has any |
| TreeBuilder.ParseReportDescriptor | crates/webhid-daemon/src/descriptor/mod.rs:14-29 | input, output and feature reports in this order make the forest |
| BlockingProofs.PruneKeepsVisible | crates/webhid-daemon/src/report_blocking.rs:221-285 | pruning keeps exactly the reports whose key is unprotected, under the same collections and in the same order |
| BlockingProofs.PruneLeavesNoneBare | crates/webhid-daemon/src/report_blocking.rs:221-252 | no collection with an empty subtree remains |
| BlockingProofs.PopulatedHasItems | crates/webhid-daemon/src/report_blocking.rs:221-252 | hence every remaining collection has a report somewhere below it |
| BlockingProofs.PruneNothing | crates/webhid-daemon/src/report_blocking.rs:221-252 | a forest without bare collections and protected reports is returned unchanged |
| BlockingProofs.PruneTwice | crates/webhid-daemon/src/report_blocking.rs:195-285 | pruning a pruned forest under any policy that spares what is left changes nothing |
| BlockingProofs.RebuiltMapAgrees | crates/webhid-daemon/src/report_blocking.rs:84-118 | the map rebuilt from the pruned tree protects none of the reports left in it |
| BlockingProofs.PruneDeviceIsIdempotent | crates/webhid-daemon/src/report_blocking.rs:195-219 | pruning a pruned device changes nothing, though the map may be rebuilt from the pruned tree |
| BlockingProofs.HiddenIffNothingVisible | crates/webhid-daemon/src/report_blocking.rs:195-219 | a device is hidden iff all its reports are protected, one without collections always |
| BlockingProofs.BlockedIffProtected | crates/webhid-daemon/src/report_blocking.rs:312-335 | the blocked input ids are exactly the ids of protected input reports |
| BlockingProofs.VisibleIffUsable | crates/webhid-daemon/src/report_blocking.rs:395-417 | for every report the map knows, a page sees it iff the write path takes it, and sees an input report iff the reader delivers it |
| BlockingProofs.ReaderAgreesWithWritePath | crates/webhid-daemon/src/device_mgr.rs:1299-1308 | the reader drops an input report, known or not, iff `is_report_protected` refuses it or the device is a protected interface without collections |
| BlockingProofs.UnknownReportIsShown | crates/webhid-daemon/src/report_blocking.rs:395-417 | a report the map does not know is always shown, and refused iff a top-level collection is always protected; this needs a raw descriptor |
| BlockingProofs.BlockedDeviceIsHidden | crates/webhid-daemon/src/report_blocking.rs:195-219 | pruning hides a device that is blocked as a whole iff the association map has a collection for each of its reports; always when the map comes from the tree |
| BlockingProofs.TreeMapKnows | crates/webhid-daemon/src/report_blocking.rs:84-118 | the map of the tree knows every report of the tree with all collections above it |
| FallbackProofs.FallbackCovers | crates/webhid-daemon/src/report_blocking.rs:37-118 | for consistent chains the map walked from the built tree has every association of the map of the parsed descriptor |
| FallbackProofs.FallbackProtects | crates/webhid-daemon/src/report_blocking.rs:139-159 | so the tree fallback protects every report the full parse protects |
| FallbackProofs.TreeMapIsExact | crates/webhid-daemon/src/report_blocking.rs:84-118 | the tree map holds for a report exactly the collections on its fields' chains, own or borrowed, constant fields included |
| FallbackProofs.ParsedMapIsExact | crates/webhid-daemon/src/report_blocking.rs:49-81 | the parsed map holds exactly the collections on the own chains of its variable and array fields |
| FallbackProofs.ItemIffLanded | crates/webhid-daemon/src/descriptor/tree.rs:73-184 | the built tree has a report with this key under this path iff some field of that report resolves to it |
| FallbackProofs.WalkFindsHomes | crates/webhid-daemon/src/descriptor/tree.rs:169-184 | the walk lists the reports of every node under exactly the path its id belongs under |
| FallbackProofs.HomesExist | crates/webhid-daemon/src/descriptor/tree.rs:39-71 | consistent chains give every id one path that all chains agree on |
| FallbackProofs.BlockedDescriptorIsHidden | crates/webhid-daemon/src/report_blocking.rs:195-219 | with a raw descriptor and the tree built from it, pruning hides such a device iff each report key with a resolvable field also has a variable or array field with a chain of its own |
| FallbackProofs.BlockedDeviceLeft | crates/webhid-daemon/src/report_blocking.rs:195-219 | a device 1d50:60fc whose only report is one constant field is returned by pruning unchanged |
| ReportScan.MapFromCollectionTree | crates/webhid-daemon/src/report_blocking.rs:84-118 | the recursive walk fills exactly the map of the tree |
| ReportScan.MapFromParsedDescriptor | crates/webhid-daemon/src/report_blocking.rs:49-81 | the nested loops fill exactly the map of the descriptor |
| ReportScan.ReportCollectionMap.Walk | crates/webhid-daemon/src/report_blocking.rs:85-112 | one collection adds its reports and then those below it |
| ReportScan.AddDistinct | crates/webhid-daemon/src/report_blocking.rs:63-72 | appends each association that is not there yet |
| ReportScan.ComputeBlockedInputIds | crates/webhid-daemon/src/report_blocking.rs:312-335 | an id is in the result iff its input report is protected |
| Blocklist.BlockedDeviceBlocksReports | crates/webhid-daemon/src/blocklist.rs:113-145 | a device-wide rule blocks every report of every collection |
| Blocklist.KeyboardsAndMiceProtected | crates/webhid-daemon/src/blocklist.rs:38-56 | every report of a keyboard or mouse collection is blocked; the always-protected layer covers all but features |
| Blocklist.BlockedIffListed | crates/webhid-daemon/src/blocklist.rs:38-145 | exactly which reports and which devices the rule table blocks |
| BootstrapRuns.PortLaw | addon/js/content/isolated/bootstrap-lifetime.js:29-199 | after any run each offered port is an open candidate's, accepted or rejected, exactly one of these, and was rejected at most once |
| BootstrapRuns.PromotionLaw | addon/js/content/isolated/bootstrap-lifetime.js:50-93 | `accept` is called at most once per reservation, only after the predecessor's destroy resolved, on the earliest candidate still open, which answered its own challenge and has the browser's identity at that moment; if `accept` or `accepted` throws, the port is rejected |
| BootstrapRuns.AcceptedWasPromoted | addon/js/content/isolated/bootstrap-lifetime.js:76-86 | every accepted port went through one such promotion |
| BootstrapRuns.HeadLaw | addon/js/content/isolated/bootstrap-lifetime.js:50-93 | after each event no queue head is expired or closed, and none is live with its cleanup complete |
| BootstrapRuns.FreshPortGetsIn | addon/js/content/isolated/bootstrap-lifetime.js:95-198 | in any reachable state a port of a source without reservation, whose document the browser confirms, is accepted once it answered its challenge and its predecessor, if any, is destroyed |
| BootstrapRuns.RunKeeps | addon/js/content/isolated/bootstrap-lifetime.js:160-198 | the invariant holds after every run |
| BootstrapRuns.StepKeeps | addon/js/content/isolated/bootstrap-lifetime.js:160-198 | each event keeps the gate's invariant |
| BootstrapRuns.PromoteKeeps | addon/js/content/isolated/bootstrap-lifetime.js:50-93 | however the promotion loop ends, the invariant holds and the head is in order |
| BootstrapRuns.AcceptKeeps | addon/js/content/isolated/bootstrap-lifetime.js:75-91 | taking the head, with `accept` or `accepted` throwing or not, keeps the invariant |
| BootstrapRuns.FailKeeps | addon/js/content/isolated/bootstrap-lifetime.js:43-48 | failing a transition rejects its waiting ports once each and keeps the invariant |
| BootstrapRuns.AddCandidateKeeps | addon/js/content/isolated/bootstrap-lifetime.js:95-136 | a new candidate keeps the invariant, also when the probe cannot be posted |
| BootstrapRuns.ReceiveKeeps | addon/js/content/isolated/bootstrap-lifetime.js:160-198 | a message keeps the invariant; each of its ports ends in exactly one place |
| BootstrapRuns.AnsweredKeeps | addon/js/content/isolated/bootstrap-lifetime.js:108-121 | an answer, right or wrong, keeps the invariant |
| BootstrapRuns.TimedOutKeeps | addon/js/content/isolated/bootstrap-lifetime.js:123-128 | a deadline keeps the invariant |
| BootstrapRuns.CleanedUpKeeps | addon/js/content/isolated/bootstrap-lifetime.js:150-155 | a resolved destroy keeps the invariant |
| BootstrapRuns.CleanupFailedKeeps | addon/js/content/isolated/bootstrap-lifetime.js:156-157 | a failed destroy keeps the invariant |
| BootstrapProofs.HeadIsEarliest | addon/js/content/isolated/bootstrap-lifetime.js:52-74 | when the head is taken every earlier candidate of its transition is closed |
| BootstrapGates.BootstrapGate.CloseAll | addon/js/content/isolated/bootstrap-lifetime.js:38-41 | closes all waiting candidates and empties the queue |
| BootstrapGates.BootstrapGate.Fail | addon/js/content/isolated/bootstrap-lifetime.js:43-48 | the failed transition gives up its reservation iff it still holds it |
| BootstrapGates.BootstrapGate.TryPromote | addon/js/content/isolated/bootstrap-lifetime.js:50-93 | the loop makes the promotion step; a head that has not expired gets its turn: it waits, is let in, is rejected, or gives way to another document |
| BootstrapGates.BootstrapGate.Accept | addon/js/content/isolated/bootstrap-lifetime.js:75-91 | the try block and its catch, with both ways to throw |
| BootstrapGates.BootstrapGate.Add | addon/js/content/isolated/bootstrap-lifetime.js:95-136 | queues, probes, and expires the candidate at once if posting fails |
| BootstrapGates.BootstrapGate.StartTransition | addon/js/content/isolated/bootstrap-lifetime.js:138-158 | reserves the source and adds the first candidate |
| BootstrapGates.BootstrapGate.OnMessage | addon/js/content/isolated/bootstrap-lifetime.js:160-198 | the listener: what becomes of the port in each of its cases, and of the candidates before it |
| BootstrapGates.BootstrapGate.OnAnswer | addon/js/content/isolated/bootstrap-lifetime.js:108-121 | only the candidate's own challenge makes it live; then, if it is the head, it is its turn, else nothing else changes |
| BootstrapGates.BootstrapGate.OnDeadline | addon/js/content/isolated/bootstrap-lifetime.js:123-128 | a candidate that has not answered is closed and its port rejected; it leaves the queue iff it was the head, and then the first behind it that has not expired has its turn |
| BootstrapGates.BootstrapGate.OnCleaned | addon/js/content/isolated/bootstrap-lifetime.js:150-155 | marks the cleanup of a reserved transition complete and gives its head its turn; of any other only notes that the promise resolved |
| BootstrapEffects.FirstLiveGetsIn | addon/js/content/isolated/bootstrap-lifetime.js:50-131 | in every reachable state the first live candidate is let in, cleanup done and the browser showing its document, by nothing but the deadlines of those before it, none of which ever answers |
| BootstrapEffects.SilenceBlocksNobody | addon/js/content/isolated/bootstrap-lifetime.js:50-131 | the same from any state in which those before it are expired or have a deadline running |
| BootstrapEffects.DeadlineLands | addon/js/content/isolated/bootstrap-lifetime.js:123-128 | in every gate with the invariant, a deadline of a candidate that has not answered closes it and rejects its port; it leaves the queue iff it was the head, and then it is the turn of the first behind it that has not expired |
| BootstrapEffects.SilentBehindHead | addon/js/content/isolated/bootstrap-lifetime.js:123-128 | a run that ends with a deadline after which the candidate, closed, is still in a queue: the second of two that wait |
| BootstrapEffects.HeadInTurn | addon/js/content/isolated/bootstrap-lifetime.js:50-93 | the turn of a head, in every case of what the browser shows and what the effects do: waiting, let in, rejected, everybody closed, or passed over |
| BootstrapEffects.NextInTurn | addon/js/content/isolated/bootstrap-lifetime.js:50-93 | expired candidates at the front are passed over, and the first other one has its turn |
| BootstrapEffects.AnswerLands | addon/js/content/isolated/bootstrap-lifetime.js:108-121 | an answer with the own challenge makes the candidate live, and if it is the head it is its turn; any other answer only is heard |
| BootstrapEffects.CleanedLands | addon/js/content/isolated/bootstrap-lifetime.js:147-157 | a resolved cleanup gives the head its turn iff the source is still reserved for this transition |
| BootstrapEffects.OfferLands | addon/js/content/isolated/bootstrap-lifetime.js:160-198 | what becomes of an offered port, and of the candidates before it, in each case of the listener |
| BootstrapEffects.ClocksRun | addon/js/content/isolated/bootstrap-lifetime.js:95-138 | along every run an open candidate has its deadline running exactly until it answers |
| Wire.BatchRoundTrip | crates/webhid-daemon/src/batching.rs:27-39 | parsing a batch frame gives back exactly its reports in order iff every payload and its id fit the 16-bit length |
| Wire.EntriesParse | addon/js/utils/wire-format.js:30-48 | the same from any offset at which entries stand |
| Wire.WriteBatchFrame | crates/webhid-daemon/src/batching.rs:27-39 | the loop writes the frame that is parsed back |
| Wire.ParseInputReports | addon/js/utils/wire-format.js:30-48 | the offset loop computes the parsed reports |
| Wire.RequestRoundTrip | addon/js/utils/wire-format.js:88-95 | the daemon reads the kind, id, report id and payload the page sent |
| Wire.StatusRoundTrip | crates/webhid-daemon/src/batching.rs:329-335 | the page reads the request id and the verdict the daemon wrote |
| Wire.FeatureRoundTrip | crates/webhid-daemon/src/batching.rs:337-349 | a feature read arrives whole, or as a failure if it failed or exceeds 65535 bytes |
| Sender.RunSender | crates/webhid-daemon/src/batching.rs:217-327 | whatever arrives, fails or is cancelled: parsing the frames that were sent and then the batch still held gives exactly the device's received reports in order; undisturbed, all are received, the frames are those that the batching laws speak of, none is held back in adaptive mode, and in interval mode only those since the last flush |
| Sender.BurstSharesFrame | crates/webhid-daemon/src/batching.rs:147-180 | undisturbed, reports that come without a pause share one frame, and one that comes alone is sent at once, in a frame of its own |
| Sender.WindowSharesFrame | crates/webhid-daemon/src/batching.rs:181-215 | two or more at once open a window: with all that comes until it ends they make exactly one frame |
| Sender.TickSharesFrame | crates/webhid-daemon/src/batching.rs:236-262 | with an interval, all reports since the last tick or lag make one frame at the next tick |
| Sender.BatchLeavesFirst | crates/webhid-daemon/src/batching.rs:77-110 | what the batch holds leaves before anything that comes later, and together |
| Sender.BatchSender.FlushBatch | crates/webhid-daemon/src/batching.rs:77-104 | sends the batch as one frame or keeps it; nothing is lost either way |
| Sender.BatchSender.HandleEvent | crates/webhid-daemon/src/batching.rs:106-145 | adds the device's own reports only; flushes on lag; stops on close |
| Sender.BatchSender.DrainAvailable | crates/webhid-daemon/src/batching.rs:147-175 | takes all that is available, stops early only behind a closed channel or a lag whose flush failed, and loses nothing |
| Sender.BatchSender.CoalesceWindow | crates/webhid-daemon/src/batching.rs:181-214 | the window ends at any moment without loss |
| Sender.BatchSender.RunAdaptive | crates/webhid-daemon/src/batching.rs:258-326 | the adaptive loop; undisturbed it consumes everything and holds nothing back |
| Sender.BatchSender.RunInterval | crates/webhid-daemon/src/batching.rs:237-256 | whatever arrives, the interval loop holds exactly the reports since the last tick or lag, unless it stopped at one because the flush failed |
| FrameStream.AnySplitDelivers | addon/js/utils/webtransport.js:156-180 | however the length-prefixed stream is cut into chunks, the reader emits exactly the written frames in order and keeps only the incomplete end |
| FrameStream.FramesConcat | addon/js/utils/webtransport.js:162-176 | bytes that come later continue from the remainder and nothing else |
| FrameStream.RemainderIsIncomplete | addon/js/utils/webtransport.js:164-174 | what stays buffered holds no complete frame |
| FrameStream.WrittenThenMore | crates/webhid-daemon/src/webtransport.rs:230-243 | the frames written are read back in order and then what follows them |
| FrameStream.WrittenIsUnique | crates/webhid-daemon/src/webtransport.rs:230-243 | two lists of frames written as the same bytes are equal |
| FrameStream.FrameReader.Feed | addon/js/utils/webtransport.js:160-177 | one chunk emits every frame it completes |
| FrameStream.ReadFrames | addon/js/utils/webtransport.js:156-180 | the loops over chunks emit the frames of the whole stream |
| WorkerTable.EachRequestInOnePlace | addon/js/content/isolated/worker/index.js:127-144 | through any run every send, sendFeature and receiveFeature request given, its kind read off the run, is in exactly one of queued, pending or replied once, and never ignored; a message of another type may instead be ignored, and is then nowhere else; the queue never exceeds 1024 |
| WorkerTable.RepliesAreFinal | addon/js/content/isolated/worker/index.js:45-59 | a request replied to is never replied to again, queued, pending or ignored |
| WorkerTable.ClosingRepliesToAll | addon/js/content/isolated/worker/index.js:88-104 | after any run a closing transport leaves nothing waiting, and every send, sendFeature and receiveFeature request given so far has its one reply |
| WorkerTable.RunKeepsKinds | addon/js/content/isolated/worker/index.js:79-144 | through any run queued messages carry the kind they were given with, and only messages of an unknown type are ignored |
| WorkerTable.AnswerSettlesItsRequest | addon/js/utils/wire-format.js:57-79 | the daemon's answer to the frame of a pending request settles exactly that request iff its id is below 2^32 |
| WorkerTable.StepKeeps | addon/js/content/isolated/worker/index.js:74-144 | each event keeps every request in one place and wire ids of pending requests distinct |
| WorkerTable.HandleConserves | addon/js/content/isolated/worker/index.js:127-144 | handling a message puts its ticket in exactly one place |
| WorkerTable.SettleConserves | addon/js/content/isolated/worker/index.js:45-59 | a response or deadline moves at most one ticket, from pending to replied |
| WorkerTable.Worker.HandleDataPortMessage | addon/js/content/isolated/worker/index.js:127-144 | with the link closed a message becomes the last of the queue, or is refused if 1024 are there; with the link open a well-formed request is pending under the next id if its send succeeds, and answered if not; a malformed one is answered; nothing else changes |
| WorkerTable.EarlyRequestsAreSent | addon/js/content/isolated/worker/index.js:79-144 | a fresh worker: the first 1024 well-formed requests given before the transport opens are all pending once it does, the i-th under wire id i + 1, and exactly the later ones were refused, in order |
| WorkerTable.ReadySendsQueued | addon/js/content/isolated/worker/index.js:79-84 | in any state, when the transport opens and stays open all that is well-formed in the queue is pending in the order given under consecutive ids; only malformed messages are answered |
| WorkerTable.EarlyWait | addon/js/content/isolated/worker/index.js:127-139 | from any state with the transport closed, messages queue up in order until 1024 are there and every later one is refused at once |
| WorkerTable.SettledOnce | addon/js/content/isolated/worker/index.js:45-59 | a response and a deadline alike answer exactly the request pending under their id, and change nothing if there is none |
| WorkerTable.Worker.HandleSend | addon/js/content/isolated/worker/index.js:186-261 | registers, sends, and takes the entry back if the send failed |
| WorkerTable.Worker.OnReady | addon/js/content/isolated/worker/index.js:79-84 | hands every queued message in again; if the link stays open, all well-formed ones are pending afterwards in the order given, under consecutive ids, and only malformed ones answered |
| WorkerTable.Worker.OnClosed | addon/js/content/isolated/worker/index.js:85-104 | rejects all pending, then all queued requests |
| WorkerTable.Worker.OnSettled | addon/js/content/isolated/worker/index.js:45-59 | settles the pending request of this id, if there is one |
| OwnershipProofs.NoTokenIsLost | addon/js/background/state_ops.js:25-58 | a token registered or handed to a close is owned, queued for retry or in a close in flight until the daemon confirms it or its device or authority is cleared |
| OwnershipProofs.RetiredFramesAreClosing | addon/js/background/state_ops.js:362-409 | whatever a retired frame still owns is being closed under that very owner record |
| OwnershipProofs.RetiredForever | addon/js/background/state_ops.js:66-103 | a retired frame key never becomes active while its tab lives and the authority is not cleared |
| OwnershipProofs.LateCloseSparesNewOwner | addon/js/background/state_ops.js:39-58 | however late the answer to a close comes and whatever happens in between, it never removes a session registered after the close began |
| OwnershipProofs.RunIsLater | addon/js/background/state_ops.js:25-521 | along any run an owner is the one there was or has a newer record, and a close in flight is answered once or still the same |
| OwnershipProofs.RunKeeps | addon/js/background/state_ops.js:25-521 | the accounting holds after every run |
| OwnershipProofs.StepKeeps | addon/js/background/state_ops.js:25-521 | each operation keeps the accounting of tokens |
| OwnershipProofs.FinishKeeps | addon/js/background/state_ops.js:42-57 | a close finishing, confirmed or not, drops no token |
| OwnershipProofs.FinishSettles | addon/js/background/state_ops.js:42-57 | an answered close leaves its token out of the queue iff confirmed, takes ownership away iff it is still the one it began under, and touches no other token |
| OwnershipProofs.RegisterSessionKeeps | addon/js/background/state_ops.js:141-161 | registration, refused for a retired frame, keeps the accounting |
| OwnershipProofs.PurgeFrameKeeps | addon/js/background/state_ops.js:362-377 | retiring a frame while closing its sessions keeps the accounting |
| OwnershipProofs.PurgeBridgeKeeps | addon/js/background/state_ops.js:385-409 | the same for all frames of a bridge |
| OwnershipProofs.PurgeTabKeeps | addon/js/background/state_ops.js:453-466 | the same for a tab |
| OwnershipProofs.RetryKeeps | addon/js/background/state_ops.js:430-442 | retrying keeps every orphan until its close is confirmed |
| OwnershipState.BackgroundState.RegisterFrameLifetime | addon/js/background/state_ops.js:66-76 | counts up, and is refused iff the key is retired |
| OwnershipState.BackgroundState.RegisterDeviceSession | addon/js/background/state_ops.js:141-161 | refused iff the frame is retired, and then nothing changes; otherwise exactly this session gets a fresh owner record |
| OwnershipState.BackgroundState.RetainOrphanCleanup | addon/js/background/state_ops.js:25-30 | drops ownership only of the expected owner; an orphan already queued keeps its attempts |
| OwnershipState.BackgroundState.EndClose | addon/js/background/state_ops.js:43-57 | removes ownership only if confirmed and unchanged, else queues the token |
| OwnershipState.BackgroundState.CloseChosen | addon/js/background/state_ops.js:362-377 | starts a close for exactly the chosen sessions |
| OwnershipState.BackgroundState.PurgeFrame | addon/js/background/state_ops.js:362-377 | retires the key; each session of the frame is then being closed under its owner, and no other close is new |
| OwnershipState.BackgroundState.PurgeBridge | addon/js/background/state_ops.js:385-409 | retires each key of the bridge; each of its sessions is then being closed under its owner, and no other close is new |
| OwnershipState.BackgroundState.PurgeTab | addon/js/background/state_ops.js:453-466 | each session of the tab is then being closed under its owner, no other close is new, and exactly the tab's keys are forgotten |
| OwnershipState.BackgroundState.RetryOrphanCleanup | addon/js/background/state_ops.js:430-442 | counts one attempt for each orphan and returns how many; each has a close in flight then, and no other close is new |
| OwnershipState.BackgroundState.ClearDeviceOwnership | addon/js/background/state_ops.js:515-521 | forgets exactly the device's sessions and orphans |
| OwnershipEffects.ClosedTabIsEmptied | addon/js/background/state_ops.js:453-466 | along every run after a tab was purged in which it registers no session: whatever it still owns is being closed under that very owner record, so it owns nothing once those closes are answered |
| OwnershipEffects.PurgeTabCloses | addon/js/background/state_ops.js:453-466 | each session of a purged tab has a close in flight under its owner, every close that is new is for one of them, and exactly its frames are forgotten |
| OwnershipEffects.PurgeFrameCloses | addon/js/background/state_ops.js:362-377 | the same for a frame, whose key alone is retired |
| OwnershipEffects.PurgeBridgeCloses | addon/js/background/state_ops.js:385-409 | the same for a bridge, of whose keys each is retired and no other |
| OwnershipEffects.RetryAsksForAll | addon/js/background/state_ops.js:430-442 | a retry has a close in flight for each orphan, every new close is for one, and each has one attempt more |
| OwnershipEffects.RegisterLands | addon/js/background/state_ops.js:141-161 | a session is recorded under a new owner record with its frame active, nobody else's record changes; for a retired frame nothing happens |
| OwnershipEffects.ClearDeviceLands | addon/js/background/state_ops.js:515-521 | a device that goes takes exactly its sessions and orphans |

## Left out

- HID, udev, IOKit and Win32 access, sockets, WebSocket and QUIC servers, native messaging plumbing: foreign calls.
- The byte-level report descriptor parser, tokio channels, SHA-256, random tokens and timers: inputs, fresh values or steps that may happen at any time.
- TlvCodec.Decoder.ReadVarint: 32-bit shifts wrap their distance as in JavaScript and in a release build of the daemon; a debug build would panic on a varint of more than five bytes.
- TlvCodec.Decoder.ReadReport: when a report holds a node that is neither a field nor unknown, the JavaScript reader puts it among the items as it is; the model answers `Foreign` there and does not follow the reader further. TlvProofs.RoundTrip shows that no encoded forest leads there.
- Strings in descriptors are opaque bytes; UTF-8 decoding with replacement and base64 are not modelled.
- `decode_unit_safe` (splitting a unit into nibbles), `max_report_size`, `validate_report_send`: easy, and the size check does not speak of split reports.
- FieldsProofs.AggregationIsLossless: fields are non-empty and arrays divide evenly, as the descriptor parser makes them; a wrap in `detect_contiguous_range` is that of a release build, a debug build would panic.
- Worker, reader and request threads of the daemon are steps of a state machine on values, not methods; report bytes and the protection test before an enqueue are not part of a request.
- DeviceManagers.DeviceManager.CloseAllForClient: proved for one call alone; other threads may act between its closes.
- DeviceManagers.DeviceManager.WsConnect: requires that stored cells are issued ones, an invariant of every run; the class proves transitions and the lemmas about them prove the invariants.
- DeviceManagers.DeviceManager.GetDeviceByWsAuth: likewise requires the agreement of the session and hash maps.
- Sender.RunSender: the rate gate and the lengths of windows and intervals are not modelled, any window may end at any moment; events lost to a lagging channel before the sender sees them are not counted as received.
- Enumeration, its vendor and product filters, and the grouping of interfaces: calls into the HID library, apart from the blocklist predicate they use.
- Bridge and page data-plane generations, reconnect callbacks, pickers, settings and user interface: large asynchronous files whose generation counters have no monotone law, or easy members.
- `deviceTabMap` counts: a cleanup close does not decrement them, so they agree with no law of the sessions; the per-origin and per-tab clear functions, which no caller uses, are left out with them.
- Checks for absent ids and null messages at the head of the background and worker functions: types make the arguments present.
- Candidates and transitions of the gate, owner records and pending entries are entries of tables under numbers, not objects; aliasing is expressed by those numbers.
- `handleControlResponse`: its reading of a frame is a function, and removing the pending entry is `Worker.OnSettled`; request ids are unbounded in the table and cut to 32 bits on the wire.
