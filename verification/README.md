# A verified model of yacob

yacob is a CANopen stack (CiA 301, CiA 305). This project models the protocol
state machines of its core crate and the generated PDO code in Dafny and proves
what they keep over every input, every run and every interleaving. Nothing here
executes the original program.

`dafny verify dfyconfig.toml` checks the whole project.

## How it is organised

- **The wire format.** `PdoBits` (bits and bytes, the copy and sign-extension
  loops), `ObjectDictionary`, `PdoWire` (building and applying a PDO),
  `PdoMeaning` (what a transfer preserves), `PdoCodec` (the generated master
  codec and its agreement with the node engine), `PdoDispatch` (the generated
  dispatcher and its collision analysis), `MappingRecords` (the generated write
  arms of dynamic mapping records).
- **The engines and monitors.** `TpdoEngine`, `RpdoEngine`, `Sync`, `Heartbeat`,
  `Lss`, `Nmt`. Each has a state datatype, functions for its operations, a class
  whose methods are proved against those functions, and theorems over every run.
- **The node.** `Transport` is an oracle that accepts or refuses each offered
  frame and records a history. `History` keeps the account an observer can keep
  of a history, states the law it must obey and what the law means. `SdoSlot` is
  one SDO channel over an abstract server. `NodeModel` gives the effect of every
  part of a processing call, every dispatched frame and every application call;
  `NodeSafety` proves that each keeps to the law; `NodeRuns` composes them into
  calls and runs. `NodeSteps` cuts a run into its steps and gives every frame its
  route; `NodeEngines`, `NodeReceive` and `NodeServices` show that every part of
  the node is driven only through its own operations, so that what is proved of
  every run of a part holds of every run of the node. `NodeDuties` states what
  the periodic services owe, `NodeConfig` what is loaded from the dictionary.
  `NodeObject` is the node as an object, tied method by method to `NodeModel`.
- **The bus.** `WakerProtocol` is the register-then-recheck protocol as
  interleaved atomic steps; `Bus` and `TxQueue` are its two uses.

Bytes are 8-bit vectors and bit strings are sequences of booleans in wire order.
Times are readings of the wrapping 64-bit microsecond clock; `Types` relates
them to true time. Transmit verdicts, received frames, application calls and the
replies of the SDO server are arbitrary.

## Where the code is weaker than a reader might expect

- A full-width mapping reproduces an object exactly; a narrower one does so if
  and only if the value fits the mapped width (`PdoMeaning.SurvivesIffFits`,
  `PdoMeaning.LoopbackIsIdentity`).
- The remapping protocol freezes the entries while the count is nonzero, not the
  count: it may be lowered directly (`MappingRecords.CountMayChangeWhileActive`).
- A loaded transmit mapping can still fail to build, if and only if a mapped
  object is narrower than its mapping or longer than a frame
  (`MappingRecords.LoadedMappingWorks`).
- LSS responses are the one service that is not held back by the boot gate.
- A trigger latched while the node is outside Operational is dropped at the end
  of the next processing call, not only when the node leaves Operational
  (`NodeEngines.CallEdgesFollow`).

## Model

| member | source | states |
|---|---|---|
| PdoBits.CopyPdoBits | canopen-core/src/pdo/mod.rs:41-66 | copies any run of bits between any two positions: the target's bit string becomes the old one with the source bits spliced in; the byte-aligned and the bitwise path meet the same specification |
| PdoBits.CopyWholeBytes | canopen-core/src/pdo/mod.rs:48-54 | the aligned path, on whole bytes, is the same splice of the bit string |
| PdoBits.CopyBitwise | canopen-core/src/pdo/mod.rs:56-66 | the bit loop splices the bits one by one and disturbs no other bit |
| PdoBits.SignExtendPdoBits | canopen-core/src/pdo/mod.rs:84-95 | every bit from the given position on becomes a copy of the sign bit; a width of zero or of the whole value changes nothing |
| PdoBits.BitsOfFromBits | canopen-core/src/pdo/mod.rs:41-66 | byte strings and bit strings in wire order are in bijection (one direction) |
| PdoBits.FromBitsOfBits | canopen-core/src/pdo/mod.rs:41-66 | the other direction of that bijection |
| ObjectDictionary.Size | canopen-core/src/datatypes.rs:27-36 | fixed-size types are 1 to 8 bytes wide |
| ObjectDictionary.WriteEffect | canopen-derive/src/codegen.rs:1180-1285 | a generated write arm succeeds exactly on a writable object of the exact width (or within capacity), and then changes that object's value alone |
| PdoWire.BuildPdoFrame | canopen-core/src/pdo/engine.rs:623-655 | the packing loop yields the frame whose bits are the mapped fields laid end to end and padded to a byte, and none exactly when an object cannot supply its bits or they exceed 64 |
| PdoWire.PackEntry | canopen-core/src/pdo/engine.rs:630-650 | one loop step: a dummy leaves zero bits, an object contributes its low bits, an unreadable or too narrow object stops the build |
| PdoWire.FrameForExists | canopen-core/src/pdo/engine.rs:623-655 | a frame exists if and only if the COB-ID is 11-bit, every object supplies its bits and they fit; its length is the mapped bits rounded up to bytes |
| PdoWire.ApplyMapped | canopen-core/src/pdo/engine.rs:663-718 | the unpacking loop writes each mapping entry that fits the payload, in order, each write independent of the others, with one event per successful write and oldest-first eviction |
| PdoWire.ReceiveEntry | canopen-core/src/pdo/engine.rs:677-714 | one loop step: the field is widened to the object (sign- or zero-extended) and written |
| PdoWire.WidenInPlace | canopen-core/src/pdo/engine.rs:689-701 | the copied field is extended in place to the object's size, signed types with their sign |
| PdoWire.Fitting | canopen-core/src/pdo/engine.rs:673-679 | how many leading mapping entries fit a payload: no later prefix fits |
| PdoMeaning.FrameCarriesFields | canopen-core/src/pdo/engine.rs:623-655 | in a built frame every mapped field sits at its mapping offset |
| PdoMeaning.PayloadMeaning | canopen-core/src/pdo/engine.rs:663-718 | after applying a payload each reached object holds its field extended to the object, every other object is untouched and no object changes type |
| PdoMeaning.TransferPreservesMeaning | canopen-core/src/pdo/engine.rs:623-718 | a frame built along one mapping list and applied along another of equal widths leaves the sender's low bits, extended, in each reached object; dummies deliver zeros; nothing else changes |
| PdoMeaning.SurvivesIffFits | canopen-core/src/pdo/engine.rs:689-701 | an object survives a mapping of n bits if and only if its value fits in them; full-width mappings reproduce it exactly |
| PdoMeaning.LoopbackIsIdentity | canopen-core/src/pdo/engine.rs:623-718 | a frame applied back to its own dictionary leaves it unchanged if and only if every mapped value fits its mapped width |
| PdoMeaning.EventsAreConserved | canopen-core/src/pdo/engine.rs:702-714 | the event queue holds the newest events and the overflow count accounts for all others |
| PdoCodec.MappedFields | canopen-derive/src/pdo_client_codegen.rs:291-349 | the generator accepts exactly the layable mapping lists, and the fields carry the engine's running offsets |
| PdoCodec.EncodeFields | canopen-derive/src/pdo_client_codegen.rs:464-480 | the generated encoder's buffer is every payload field copied to its offset in order |
| PdoCodec.EncodePdo | canopen-derive/src/pdo_client_codegen.rs:262-280 | an encoded RPDO payload is the payload fields laid end to end along the mapping |
| PdoCodec.EncoderAgreesWithEngine | canopen-derive/src/pdo_client_codegen.rs:464-480 | for one mapping list and equal values, master encoder and node engine produce the same frame |
| PdoCodec.MasterToNode | canopen-derive/src/pdo_client_codegen.rs:262-280 | a master-encoded RPDO, once applied by the node, leaves each payload field in its object |
| PdoCodec.DecodeField | canopen-derive/src/pdo_client_codegen.rs:482-518 | the generated decoder returns the field at its offset, widened to the Rust representation (booleans canonical, 24-bit integers extended to 32) |
| PdoCodec.NodeToMaster | canopen-derive/src/pdo_client_codegen.rs:482-518 | decoding a node-built TPDO yields the object's value, cut to the mapped width and extended |
| PdoDispatch.ActiveTpdos | canopen-derive/src/pdo_client_codegen.rs:75-97 | the dispatched TPDOs are exactly the declared, not disabled ones |
| PdoDispatch.ActiveAreDispatchable | canopen-derive/src/pdo_client_codegen.rs:75-97 | an accepted PDO list never has two active TPDOs with one COB-ID specification |
| PdoDispatch.CollisionAnalysis | canopen-derive/src/pdo_client_codegen.rs:382-390 | the compile-time test for a pair holds if and only if some node id 1..127 makes their COB-IDs equal |
| PdoDispatch.Decode | canopen-derive/src/pdo_client_codegen.rs:131-182 | the dispatcher returns a payload only for the one active TPDO on that COB-ID, AmbiguousCobId exactly when two resolve to it, and nothing exactly when none does; a frame on 0x80 + 0x100 n + node id goes to the predefined TPDO n unless ambiguous |
| PdoDispatch.PredefinedConnectionSet | canopen-derive/src/pdo_client_codegen.rs:358-373 | TPDO 1 to 4 without a declared COB-ID are on 0x180, 0x280, 0x380, 0x480 plus the node id, RPDO 1 to 4 on 0x200, 0x300, 0x400, 0x500 plus the node id |
| PdoDispatch.PredefinedAreDistinct | canopen-derive/src/pdo_client_codegen.rs:358-373 | no two predefined PDOs, on any nodes, share a COB-ID |
| PdoDispatch.AmbiguityIsMixed | canopen-derive/src/pdo_client_codegen.rs:358-390 | an accepted list is ambiguous only between an absolute and a node-relative COB-ID, and only on the one node id that makes them meet |
| MappingRecords.DescriptorRoundTrip | canopen-core/src/pdo/engine.rs:36-52 | mapping descriptors and their (index, subindex, length) fields convert back and forth |
| MappingRecords.MappingRecord.Validate | canopen-derive/src/codegen.rs:870-890 | the activation loop finds the first ineligible entry or the exact bit total |
| MappingRecords.MappingRecord.WriteCount | canopen-derive/src/codegen.rs:864-905 | write arm of subindex 0: the new record, or the error and an unchanged record |
| MappingRecords.MappingRecord.WriteEntry | canopen-derive/src/codegen.rs:906-927 | write arm of an entry: refused while the count is nonzero, otherwise stores the descriptor |
| MappingRecords.MappingRecord.Load | canopen-core/src/node.rs:1189-1200 | the loaded mapping list is the active entries in order |
| MappingRecords.ActivationExact | canopen-core/src/pdo/engine.rs:328-356 | activation succeeds if and only if the count is one byte of at most 64, all entries are eligible and they fit 64 bits |
| MappingRecords.RunKeepsRecord | canopen-derive/src/codegen.rs:864-927 | under every sequence of writes the active entries stay eligible and within 64 bits |
| MappingRecords.StepKeepsRecord | canopen-derive/src/codegen.rs:1011-1072 | the same for one write, transmit or receive |
| MappingRecords.EntriesFrozen | canopen-derive/src/codegen.rs:906-927 | while the count stays nonzero no entry slot changes |
| MappingRecords.CountMayChangeWhileActive | canopen-derive/src/codegen.rs:864-905 | the count itself may be lowered without passing through zero |
| MappingRecords.LoadedMappingFits | canopen-core/src/pdo/engine.rs:732-739 | after loading a record, transmit or receive, the payload length is always defined and every mapped object exists with the access its direction needs |
| MappingRecords.LoadedMappingWorks | canopen-core/src/pdo/engine.rs:623-655 | building from a loaded record fails if and only if some mapped object is narrower than its mapping or longer than a frame, never on the frame length |
| TpdoEngine.Engine.NotifyChanged | canopen-core/src/pdo/engine.rs:414-426 | a change is latched in every enabled TPDO that maps the object, by transmission type |
| TpdoEngine.Engine.LatchSlotEvent | canopen-core/src/pdo/engine.rs:432-444 | latches one slot; cyclic types ignore it |
| TpdoEngine.Engine.LatchSyncEvents | canopen-core/src/pdo/engine.rs:460-473 | the dirty set is latched in enabled acyclic synchronous TPDOs only |
| TpdoEngine.Engine.DiscardEvents | canopen-core/src/pdo/engine.rs:479-490 | both kinds of latches are dropped, the divisors kept |
| TpdoEngine.Engine.ResetCommunicationState | canopen-core/src/pdo/engine.rs:505-509 | divisors and latches all restart |
| TpdoEngine.Engine.OnSync | canopen-core/src/pdo/engine.rs:516-544 | a pulse advances every divisor, consumes the latch of every enabled acyclic slot and returns the frames of exactly the due slots in slot order; what due means over runs is AcyclicIsExact and DivisorIsExact |
| TpdoEngine.Engine.SyncSlot | canopen-core/src/pdo/engine.rs:517-541 | one slot of a pulse; its byte counter stays below 240, so it cannot overflow even if the type changes at run time |
| TpdoEngine.Engine.PollWith | canopen-core/src/pdo/engine.rs:577-621 | polls all slots in order; latch and send time advance only on acceptance |
| TpdoEngine.Engine.PollSlot | canopen-core/src/pdo/engine.rs:584-620 | one slot: trigger, inhibit time, current image, acceptance |
| TpdoEngine.StepEffect | canopen-core/src/pdo/engine.rs:414-621 | what any engine operation does to the latch and the send time of one slot |
| TpdoEngine.NoTriggerLost | canopen-core/src/pdo/engine.rs:414-621 | along every run the latch is set if and only if some reported change has been neither followed by an accepted frame nor dropped by leaving Operational or a reset |
| TpdoEngine.LatchHistory | canopen-core/src/pdo/engine.rs:414-544 | a latch that each step may raise and then clear is set if and only if some raise is not yet followed by a clearing; the common core of the event-driven and the synchronous case |
| TpdoEngine.AcyclicIsExact | canopen-core/src/pdo/engine.rs:516-544 | along every run an enabled type-0 TPDO is due on the next pulse if and only if some change to a mapped object was reported since the last pulse it answered, discard or reset |
| TpdoEngine.OneChangeOnePulse | canopen-core/src/pdo/engine.rs:521-531 | right after a pulse a type-0 TPDO is not due: one change is sent on one pulse |
| TpdoEngine.SyncFramesExact | canopen-core/src/pdo/engine.rs:516-544 | each due slot that can be built contributes its frame once, at its place in slot order; no other slot contributes |
| TpdoEngine.SendsCurrentImage | canopen-core/src/pdo/engine.rs:600-617 | an accepted frame is built from the dictionary at that poll, hence after every change reported before |
| TpdoEngine.PollDuty | canopen-core/src/pdo/engine.rs:577-621 | a poll offers a slot's frame if and only if the slot is enabled with type 254 or 255, has an owed change, a change in this poll or an elapsed event timer, its inhibit time has passed and the frame can be built |
| TpdoEngine.InhibitTimeRespected | canopen-core/src/pdo/engine.rs:589-614 | consecutive accepted sends of one TPDO are at least its inhibit time apart |
| TpdoEngine.DivisorIsExact | canopen-core/src/pdo/engine.rs:532-541 | from a fresh counter a type-n TPDO is due if and only if the pulse number is a multiple of n, whatever else happens |
| RpdoEngine.Engine.Process | canopen-core/src/pdo/engine.rs:842-880 | first enabled slot on the COB-ID; length check; stamp; buffer or apply |
| RpdoEngine.SlotOf | canopen-core/src/pdo/engine.rs:849-855 | the first enabled slot whose COB-ID matches, or none |
| RpdoEngine.Engine.MappedPayloadLen | canopen-core/src/pdo/engine.rs:732-739 | the summing loop yields the payload length, none beyond 64 bits |
| RpdoEngine.Engine.OnSync | canopen-core/src/pdo/engine.rs:886-900 | commits every buffered frame in slot order and empties the buffers; the event queue stays bounded |
| RpdoEngine.Engine.DiscardPending | canopen-core/src/pdo/engine.rs:917-919 | drops every buffered frame |
| RpdoEngine.Engine.CheckDeadlines | canopen-core/src/pdo/engine.rs:929-950 | flags newly expired slots and lists their reportable numbers |
| RpdoEngine.Engine.DeadlineExpired | canopen-core/src/pdo/engine.rs:966-971 | level query by slot, false for an undeclared one |
| RpdoEngine.Engine.ResetDeadlineMonitoring | canopen-core/src/pdo/engine.rs:978-981 | disarms every slot |
| RpdoEngine.PendingIsLatest | canopen-core/src/pdo/engine.rs:842-919 | a slot's buffer is always the latest length-valid frame since the last pulse or discard |
| RpdoEngine.CommitsFollowHistory | canopen-core/src/pdo/engine.rs:842-900 | the dictionary after any run is exactly what the history of receptions, pulses and reconfigurations prescribes: event-driven frames at once, at each pulse the latest length-valid frame per synchronous slot in slot order through the mapping then in force, nothing else |
| RpdoEngine.ShortFrameOnlyCounts | canopen-core/src/pdo/engine.rs:857-862 | a short frame changes the length error count alone |
| RpdoEngine.AcceptedFrameIsWhole | canopen-core/src/pdo/engine.rs:673-679 | a length-valid frame reaches every mapping entry: the unpacking loop never stops early |
| RpdoEngine.ReportsAreNewlyExpired | canopen-core/src/pdo/engine.rs:929-950 | a check lists exactly the reportable numbers of the newly expired slots |
| RpdoEngine.DeadlineEdge | canopen-core/src/pdo/engine.rs:929-950 | a check reports a slot if and only if it is monitored, heard since the last reset, not lapsed since, and silent strictly longer than its deadline |
| RpdoEngine.DeadlineLevel | canopen-core/src/pdo/engine.rs:966-971 | the level query is true if and only if a monitored slot is unheard since the reset or has lapsed since it was last heard |
| RpdoEngine.ReceptionBetweenReports | canopen-core/src/pdo/engine.rs:864-950 | between two reports of one RPDO there is a length-valid reception |
| Sync.SyncCobIdRoundTrip | canopen-core/src/sync.rs:41-88 | 0x1005 decoding accepts exactly the encodings of nonzero 11-bit COB-IDs and inverts them |
| Sync.SyncConsumer.SetCobId | canopen-core/src/sync.rs:127-133 | retargeting restarts the synthetic count, an unchanged COB-ID does not |
| Sync.SyncConsumer.Process | canopen-core/src/sync.rs:151-163 | a pulse is a frame of at most one byte on the configured COB-ID; its counter is the byte or the next synthetic count |
| Sync.ConsumerCounts | canopen-core/src/sync.rs:151-163 | over every run the consumer's count is the last received counter plus the plain pulses since, modulo 256 |
| Sync.SyncWindow.AllowsTransmit | canopen-core/src/sync.rs:216-219 | allowed if and only if a pulse opened the window and its nonzero length has not passed |
| Sync.SyncProducer.Configure | canopen-core/src/sync.rs:263-272 | an identical configuration changes nothing, any other restarts the cycle |
| Sync.SyncProducer.Reset | canopen-core/src/sync.rs:295-299 | phase and counter restart |
| Sync.SyncProducer.Poll | canopen-core/src/sync.rs:315-333 | offers the due pulse without advancing the cycle; the first poll only arms |
| Sync.SyncProducer.ConfirmSent | canopen-core/src/sync.rs:336-351 | acceptance advances phase and counter |
| Sync.OfferIsNext | canopen-core/src/sync.rs:315-351 | however often it was refused, the pulse on offer carries the number after the last accepted one |
| Sync.PulsesAreNumberedAndSpaced | canopen-core/src/sync.rs:263-351 | over every run of cycles and refusals the k-th accepted pulse carries ((k-1) mod overflow)+1 and accepted pulses are a full period apart; re-reading an unchanged configuration disturbs neither |
| Sync.PulseDueExactly | canopen-core/src/sync.rs:315-333 | over every run a pulse is on offer if and only if production is enabled, a first cycle has armed it and a full period has passed since the last accepted pulse or since arming |
| Sync.SpacingIsTrue | canopen-core/src/sync.rs:315-333 | a spacing measured on the wrapping clock holds of true time |
| Types.ElapsedOfReadings | canopen-core/src/sync.rs:324-326 | the wrapping difference never overstates a true span and equals it within one revolution |
| Heartbeat.HeartbeatMonitor.Process | canopen-core/src/heartbeat.rs:170-216 | events and new state of a received heartbeat; the two-slot buffer never refuses one |
| Heartbeat.HeartbeatMonitor.CheckTimeout | canopen-core/src/heartbeat.rs:222-241 | reports a silent node once |
| Heartbeat.FrameEvents | canopen-core/src/heartbeat.rs:182-212 | at most two events per heartbeat |
| Heartbeat.LogIsComplete | canopen-core/src/heartbeat.rs:170-241 | replaying the event log of any run reconstructs the monitor's view, so the log lies in the grammar and each RemoteReset follows exactly a report of boot-up after another state |
| Heartbeat.StartedOnceAndFirst | canopen-core/src/heartbeat.rs:184-187 | Started occurs once and first |
| Heartbeat.TimeoutsAlternate | canopen-core/src/heartbeat.rs:188-241 | Timeout and Recovered strictly alternate |
| Heartbeat.TimeoutIsExact | canopen-core/src/heartbeat.rs:222-241 | a check reports a timeout if and only if the node was heard, no timeout is outstanding and the silence since its last heartbeat exceeds the nonzero consumer time |
| Lss.LssSlave.Process | canopen-core/src/lss.rs:109-228 | mode switching, selective switching and configuration services |
| Lss.StepIsProgress | canopen-core/src/lss.rs:126-166 | in Waiting the selective step equals the longest matching prefix ending at the last request |
| Lss.SelectionIsExact | canopen-core/src/lss.rs:109-166 | after any run a frame is answered with 0x44 if and only if the slave is Waiting and the requests since it entered Waiting end with vendor, product, revision and serial in order, all matching; exactly then it is selected |
| Lss.InquiryAnswers | canopen-core/src/lss.rs:195-218 | in Configuration mode each inquiry returns the part of the identity it asks for, readable little-endian, and changes nothing |
| Lss.NodeIdConfiguration | canopen-core/src/lss.rs:168-185 | ids 1 to 127 and 255 become the slave's and are announced; any other is answered with error 1 and leaves the slave unchanged |
| Lss.NodeIdInquiry | canopen-core/src/lss.rs:219-224 | the node-id inquiry returns the id in force |
| Lss.StoreIsAnnounced | canopen-core/src/lss.rs:187-193 | store configuration is acknowledged and announced, nothing else changes |
| Lss.GlobalSwitch | canopen-core/src/lss.rs:117-133 | global switching leads to Waiting or Configuration from any mode, unanswered; other modes are ignored |
| Lss.WaitingIgnoresConfiguration | canopen-core/src/lss.rs:168-227 | outside Configuration mode no configuration service is answered or obeyed |
| Types.LeRoundTrip | canopen-core/src/lss.rs:195-218 | little-endian encoding and decoding of 32-bit values are inverse |
| Nmt.FromHeartbeatByte | canopen-core/src/nmt.rs:14-31 | state bytes decode to the one state that encodes to them |
| Nmt.CommandFromByte | canopen-core/src/nmt.rs:46-66 | command bytes decode to the one command that encodes to them |
| Nmt.Commanded | canopen-core/src/nmt.rs:125-161 | Initializing is left by no command, a reset always enters it, a change of state is always reported |
| Nmt.CommandReaches | canopen-core/src/nmt.rs:125-161 | a booted node obeys its own id and the broadcast id alike, no other id, ends in the state each command asks for whatever state it was in, and repeating a command does nothing |
| Nmt.NmtHandler.ProcessCommand | canopen-core/src/nmt.rs:125-161 | the command effect, in place |
| Nmt.NmtHandler.BootComplete | canopen-core/src/nmt.rs:118-120 | Pre-Operational after boot |
| SdoSlot.BeginPoll | canopen-core/src/node.rs:193-205 | a stale response is dropped with its transfer; otherwise a timed-out transfer's abort replaces what is queued |
| SdoSlot.Fill | canopen-core/src/node.rs:207-209 | queues one response with its time |
| SdoSlot.TrySend | canopen-core/src/node.rs:211-221 | one attempt per poll; the slot empties only on acceptance |
| SdoSlot.Service | canopen-core/src/node.rs:223-243 | at most 127 block segments, never one beyond a refused frame |
| SdoSlot.Request | canopen-core/src/node.rs:1271-1336 | a request is ignored while a response is undelivered; a client abort drops the response first |
| SdoSlot.BeganPollKeeps | canopen-core/src/node.rs:193-205 | starting a poll keeps the history lawful and leaves no response past the timeout |
| SdoSlot.ServicedKeeps | canopen-core/src/node.rs:223-243 | servicing keeps the history lawful: drawing only with an empty slot, sending only what is outstanding and in time |
| SdoSlot.RequestedKeeps | canopen-core/src/node.rs:1271-1336 | a request keeps the history lawful |
| SdoSlot.CancelledKeeps | canopen-core/src/node.rs:1240-1247 | stop and reset leave a channel with nothing waiting and nothing under way |
| SdoSlot.RequestDuty | canopen-core/src/node.rs:1271-1336 | every request that is not ignored reaches the server exactly once, its commit is passed on, and its answer is offered at once and kept only if not accepted |
| SdoSlot.BeginDuty | canopen-core/src/node.rs:193-205 | an expired response is given up and its transfer ended, otherwise a timed-out transfer's abort takes the slot, otherwise the response stays; refusals are forgotten |
| SdoSlot.DrawDuty | canopen-core/src/node.rs:223-243 | with an empty slot the server's ready block segments are offered in order until one is refused, which then waits in the slot; none is skipped |
| SdoSlot.ServiceDuty | canopen-core/src/node.rs:211-243 | an undelivered response is offered first, segments only once it is gone, and whatever is left in the slot was refused in this call |
| History.BootGate | canopen-core/src/node.rs:984-1002 | in a lawful history every SDO, SYNC, heartbeat, EMCY or PDO frame comes after a boot-up frame that was accepted or failed for good, with no reset between |
| History.CommitsStemFromPeriod | canopen-core/src/node.rs:1410-1448 | in a lawful history each synchronous RPDO write is of the latest frame buffered in its slot, received in the same uninterrupted Operational period, and written only once |
| History.SyncTpdosStemFromPulse | canopen-core/src/node.rs:1371-1439 | in a lawful history each accepted synchronous TPDO was sampled at the most recent pulse of the same Operational period, lies inside the nonzero window, and is accepted no more often than sampled |
| History.PulseSamplesAfterCommits | canopen-core/src/node.rs:1419-1430 | in a lawful history right before each pulse stand the commits of exactly the frames then buffered, in slot order, and the image the pulse samples is the dictionary before them with their payloads applied in turn |
| History.PulseLeavesNothingBuffered | canopen-core/src/node.rs:1426-1427 | a commit after a pulse is of a frame buffered after that pulse |
| History.PulseOffersEverything | canopen-core/src/node.rs:1429-1438 | in a lawful history every frame a pulse sampled is offered right after it, in order and at its time, before anything else happens |
| History.BeatsInOrder | canopen-core/src/node.rs:1061-1068 | in a lawful history the SYNC pulses accepted since the producer's cycle was last restarted are numbered in order modulo the overflow value and at least one period apart |
| History.SdoAnswersAccounted | canopen-core/src/node.rs:187-243 | in a lawful history the frames accepted on a channel are exactly its server's delivered answers, once each, in order and in time; all others but the newest were given up for a listed reason |
| History.ServerWaitsForSlot | canopen-core/src/node.rs:1271-1283 | while a response is undelivered its server is neither asked nor drained |
| NodeSafety.DispatchOk | canopen-core/src/node.rs:1450-1560 | every dispatched frame keeps the invariant: lawful history, nothing buffered, armed or retained outside Operational, silent SDO channels outside Pre-Operational and Operational |
| NodeSafety.BootOk | canopen-core/src/node.rs:984-1002 | boot-up keeps the invariant; a postponed boot stays in Initializing |
| NodeSafety.ResetOk | canopen-core/src/node.rs:903-918 | a reset keeps the invariant and silences every SDO channel |
| NodeSafety.SwitchOk | canopen-core/src/node.rs:1503-1512 | a state change keeps the invariant, even with further frames in the same receive batch |
| NodeSafety.SyncHandledOk | canopen-core/src/node.rs:1410-1439 | a pulse keeps the invariant: it commits every buffered frame in slot order, then samples the dictionary this leaves, then offers exactly what it sampled |
| NodeSafety.CommitsNotedOk | canopen-core/src/node.rs:1426-1427 | before a pulse every buffered frame is committed in slot order and the observed dictionary is the node's |
| NodeSafety.FramesAreSampled | canopen-core/src/node.rs:1426-1435 | the frames a pulse offers are those of its due TPDOs, sampled from the dictionary after the commit |
| NodeSafety.OfferedFirstOk | canopen-core/src/node.rs:1389-1398 | each offered synchronous TPDO either counts as sent or is retained, none twice |
| NodeSafety.RetriedOk | canopen-core/src/node.rs:1371-1399 | a retry keeps the invariant: only inside the window, only what the last pulse sampled |
| NodeSafety.SyncProducedOk | canopen-core/src/node.rs:1061-1068 | producing a pulse offers the next number no earlier than the period allows, and an accepted one advances the cycle |
| NodeSafety.RpdoReceivedOk | canopen-core/src/node.rs:1441-1448 | a received RPDO keeps the invariant |
| NodeSafety.SdoReceivedOk | canopen-core/src/node.rs:1253-1361 | an SDO request, with whatever it commits and reloads, keeps the invariant |
| NodeSafety.CallBegunOk | canopen-core/src/node.rs:1009-1021 | after the start of a call no response is past the timeout |
| NodeSafety.SdoServicedOk | canopen-core/src/node.rs:1032-1047 | servicing all channels keeps the invariant |
| NodeSafety.DeadlinesOk | canopen-core/src/node.rs:1080-1100 | deadline polling, or discarding outside Operational, keeps the invariant |
| NodeSafety.EmergenciesOk | canopen-core/src/node.rs:1127-1139 | emergencies are offered only in Pre-Operational and Operational |
| NodeSafety.TpdosPolledOk | canopen-core/src/node.rs:1141-1148 | event-driven TPDOs are offered only in Operational |
| NodeRuns.DrainedOk | canopen-core/src/node.rs:1023-1030 | whatever batch of frames is received, Stop and Start in one batch included, the invariant holds after each of them |
| NodeRuns.ProcessedOk | canopen-core/src/node.rs:977-1157 | a whole processing call keeps the invariant, whether it boots, is postponed or runs to the end |
| NodeRuns.RunOk | canopen-core/src/node.rs:977-1157 | every sequence of processing and application calls keeps the invariant |
| NodeRuns.NewNodeIsInitial | canopen-core/src/node.rs:266-336 | a constructed node satisfies the invariant's starting condition |
| NodeRuns.EveryRunIsSafe | canopen-core/src/node.rs:977-1157 | along every run of calls, frames and refusals: lawful history that accounts for the node's state and dictionary; booted if and only if not Initializing; outside Operational nothing buffered, armed or retained and the window closed; the retained list within its capacity |
| NodeRuns.BootGateHolds | canopen-core/src/node.rs:984-1002 | the boot gate, for every run of the node |
| NodeRuns.NothingCrossesOperational | canopen-core/src/node.rs:618-642 | for every run of the node, RPDO commits and accepted synchronous TPDOs stem from the same uninterrupted Operational period, the latter from the last pulse and inside its window |
| NodeRuns.PulsesAreWhole | canopen-core/src/node.rs:1410-1439 | for every pulse of every run of the node: exactly the frames then buffered are committed right before it in slot order, its image is the dictionary they leave, and every frame sampled from it is offered right after it |
| NodeRuns.SyncPulsesHold | canopen-core/src/node.rs:1061-1068 | for every run of the node, the SYNC pulses accepted since the last configuration change or reset are numbered in order and at least one period apart, and the producer stands right after the last |
| NodeRuns.SdoSlotsHold | canopen-core/src/node.rs:1013-1047 | for every run of the node, each SDO channel accounts for all its server's answers and consults the server only with an empty slot |
| NodeSteps.CalledIsSteps | canopen-core/src/node.rs:977-1157 | a processing call takes its steps in this order: boot, latch, dispatch every frame, service SDO, produce SYNC, retry, deadlines, heartbeat, monitors, emergencies, TPDOs |
| NodeSteps.RunIsSteps | canopen-core/src/node.rs:977-1157 | every run is exactly the sequence of its calls' steps |
| NodeSteps.OneRoute | canopen-core/src/node.rs:1450-1560 | a received frame belongs to at most one part of the node |
| NodeSteps.RouteOf | canopen-core/src/node.rs:1450-1560 | every received frame belongs to a part of the node, given by conditions on COB-IDs and length alone |
| NodeSteps.DispatchedByRoute | canopen-core/src/node.rs:1450-1560 | every dispatched frame is handled by the part it belongs to and by no other; one that nothing else claims is an RPDO reception |
| NodeEngines.DispatchFollows | canopen-core/src/node.rs:1450-1560 | which TPDO engine operations each dispatched frame amounts to; triggers are dropped only if the node is left outside Operational |
| NodeEngines.CallEdgesFollow | canopen-core/src/node.rs:1009-1100 | the start of a call only latches; the deadline step drops triggers only outside Operational |
| NodeEngines.PollFollows | canopen-core/src/node.rs:1141-1148 | a poll samples the node's current dictionary |
| NodeEngines.StepFollows | canopen-core/src/node.rs:936-1560 | whatever the step, the TPDO engine takes exactly the operations listed for it |
| NodeEngines.RunDrives | canopen-core/src/node.rs:936-1560 | along every run the TPDO engine is exactly where the node's own sequence of engine operations leads it |
| NodeEngines.NoTriggerLostInAnyRun | canopen-core/src/node.rs:936-1148 | over every run of the node a latch is set if and only if some change reported along it has been neither followed by an accepted frame nor dropped, and drops happen only outside Operational |
| NodeEngines.AcyclicIsExactInAnyRun | canopen-core/src/node.rs:936-1439 | over every run of the node an enabled type-0 TPDO is due on the next pulse if and only if some change to a mapped object was reported since the last pulse it answered or the last drop |
| NodeEngines.DivisorIsExactInAnyRun | canopen-core/src/node.rs:1410-1439 | over every run of the node a type-n TPDO is due on exactly every n-th pulse while its configuration stands and no reset intervenes |
| NodeEngines.NotifyAlwaysLatches | canopen-core/src/node.rs:936-948 | a notified change is latched however full the dirty set is |
| NodeReceive.DispatchFollows | canopen-core/src/node.rs:1450-1560 | which RPDO engine operations each dispatched frame amounts to: a frame no other service claims is a reception while Operational, a pulse commits, leaving Operational forgets and discards |
| NodeReceive.StepFollows | canopen-core/src/node.rs:936-1560 | whatever the step, RPDO engine and dictionary take exactly the operations listed for it |
| NodeReceive.RunFollows | canopen-core/src/node.rs:936-1560 | along every run RPDO engine, dictionary and event queue are exactly where the engine's operations lead them |
| NodeReceive.DictionaryInAnyRun | canopen-core/src/node.rs:1410-1448 | over every run of the node the dictionary is exactly what its receptions, pulses, downloads, edits and reconfigurations prescribe |
| NodeReceive.DeadlinesInAnyRun | canopen-core/src/node.rs:1080-1100 | over every run of the node: exactly when a deadline check reports an RPDO and exactly when its level is true |
| NodeServices.StepFollows | canopen-core/src/node.rs:977-1560 | whatever the step, NMT state, dirty set, heartbeat monitors, LSS slave and SYNC producer take exactly the operations listed for it |
| NodeServices.RunFollows | canopen-core/src/node.rs:977-1560 | along every run they are exactly where their own operations lead them |
| NodeServices.StateInAnyRun | canopen-core/src/node.rs:1481-1517 | over every run of the node the NMT state is the one its last boot-up, command or reset led to |
| NodeServices.LssInAnyRun | canopen-core/src/node.rs:1525-1530 | over every run of the node the LSS slave has seen exactly the frames routed to it |
| NodeServices.MonitorInAnyRun | canopen-core/src/node.rs:1532-1553 | over every run of the node between re-readings a heartbeat monitor is where the heartbeats routed to it and the timeout checks lead it |
| NodeServices.ProducerInAnyRun | canopen-core/src/node.rs:1061-1068 | over every run of the node between configuration changes and resets the SYNC producer is where its cycles lead it, and a pulse is on offer if and only if it is due |
| NodeDuties.BootDuty | canopen-core/src/node.rs:984-1002 | an unbooted node offers one boot-up frame; unless it has to wait it ends booted in Pre-Operational, or Operational if it starts by itself; while it waits only the heartbeat phase changes |
| NodeDuties.HeartbeatDuty | canopen-core/src/node.rs:1104-1110 | a heartbeat with the current state is offered if and only if the node is booted and the nonzero interval has passed; only acceptance restarts the interval |
| NodeDuties.ProduceDuty | canopen-core/src/node.rs:1061-1068 | a due SYNC pulse is the first thing offered, the node takes part in it if and only if it is accepted, and without a due pulse nothing is sent |
| NodeDuties.OffersExact | canopen-core/src/node.rs:1389-1398 | frames are offered in order, each once, and exactly the refused ones are kept in order |
| NodeDuties.RetryDuty | canopen-core/src/node.rs:1371-1399 | retained frames are dropped unsent outside Operational or past the window, left alone at the time of the last attempt, and otherwise all offered once more in order with exactly the refused ones retained |
| NodeDuties.NoSecondAttempt | canopen-core/src/node.rs:1384-1388 | a frame refused at some instant is not offered again at that instant |
| NodeDuties.EmergenciesInOrder | canopen-core/src/node.rs:1127-1139 | emergencies leave in order until the queue is empty or one is refused, which stays first |
| NodeDuties.EmergencyDuty | canopen-core/src/node.rs:1127-1139 | emergencies are sent only by a booted node in Pre-Operational or Operational |
| NodeDuties.DeadlineEventsConserved | canopen-core/src/node.rs:1080-1100 | each reported deadline becomes an event on its RPDO's record, in order; the oldest events give way and are counted |
| NodeDuties.HeartbeatEventsConserved | canopen-core/src/node.rs:1546-1552 | heartbeat events reach the application's queue in order; the oldest give way and are counted |
| NodeDuties.HeartbeatHeard | canopen-core/src/node.rs:1532-1553 | a heartbeat of a monitored node pushes exactly the events it gives rise to; a byte that is no state pushes none |
| NodeDuties.TimeoutDuty | canopen-core/src/node.rs:1115-1123 | a timeout check reports exactly the overdue monitors, in slot order |
| NodeDuties.EveryChannelServed | canopen-core/src/node.rs:1009-1047 | each call starts a poll on and services every SDO channel once, in order |
| NodeDuties.ServiceReachesEveryChannel | canopen-core/src/node.rs:1032-1047 | servicing SDO leaves every channel and the link as the channels' own service leaves them, one after the other |
| NodeDuties.BeginReachesEveryChannel | canopen-core/src/node.rs:1009-1021 | the start of a call starts a poll on every channel |
| NodeDuties.SdoRequestDuty | canopen-core/src/node.rs:1253-1336 | an eight-byte request reaches its channel in Pre-Operational and Operational, any other is ignored; what it commits touches no channel and sends nothing |
| NodeDuties.LssDuty | canopen-core/src/node.rs:1525-1530 | an LSS frame is answered exactly as the slave answers it and changes nothing else |
| NodeConfig.TpdoReload | canopen-core/src/node.rs:1162-1199 | a TPDO re-read after a write to its communication record: subindex 1 sets COB-ID and validity, 2 the type, 3 the inhibit time, 5 the event timer, each alone; any other changes nothing |
| NodeConfig.RpdoReload | canopen-core/src/node.rs:1201-1234 | the same for an RPDO, with subindex 5 the deadline |
| NodeConfig.AbsentKeepsDeclared | canopen-core/src/node.rs:1162-1234 | a setting its record does not provide keeps its declared value; a missing mapping record maps nothing |
| NodeConfig.LoadedIsActive | canopen-core/src/node.rs:1189-1200 | the mapping list a node loads is exactly the record's active entries, in order |
| NodeConfig.LoadsAtMost64 | canopen-core/src/node.rs:1189-1200 | however large a stored count is, at most 64 entries are loaded |
| NodeConfig.MonitorReload | canopen-core/src/node.rs:513-538 | which monitor a 0x1016 entry yields, when an unchanged one is kept, and when there is none |
| NodeConfig.ProducerTimeReload | canopen-core/src/node.rs:505-512 | 0x1017 in milliseconds becomes the heartbeat interval |
| NodeConfig.SyncReload | canopen-core/src/node.rs:560-604 | 0x1005 decoded so that re-encoding gives it back, 0x1006 as period, 0x1007 as window, 0x1019 as overflow; nothing is loaded if and only if 0x1005 or 0x1019 is unsupported |
| NodeConfig.SyncApplied | canopen-core/src/node.rs:560-604 | the consumer listens on the new COB-ID and recounts only if it changed, the window keeps its phase, and the producer is enabled if and only if asked for with a nonzero period |
| NodeConfig.ResetDuty | canopen-core/src/node.rs:1487-1502 | after a reset the application is told which kind, all configuration is re-read, SYNC counts start over and nothing pending survives |
| NodeConfig.DownloadDuty | canopen-core/src/node.rs:1337-1361 | a committed download is in the dictionary with its event, re-reads PDO, heartbeat or SYNC configuration exactly when it is to one of their objects, and changes nothing else |
| NodeObject.LoadMappings | canopen-core/src/node.rs:1189-1200 | the loop yields the readable entries among the first min(count, 64) |
| NodeObject.LoadTpdos | canopen-core/src/node.rs:1162-1199 | TPDO configuration re-read slot by slot |
| NodeObject.LoadRpdos | canopen-core/src/node.rs:1201-1234 | RPDO configuration re-read slot by slot |
| NodeObject.LoadMonitors | canopen-core/src/node.rs:513-538 | heartbeat monitors re-read, unchanged ones kept on request |
| NodeObject.Node.constructor | canopen-core/src/node.rs:266-306 | the fields of a new node |
| NodeObject.Node.Configure | canopen-core/src/node.rs:311-315 | the last part of construction |
| NodeObject.Node.SyncPdoFromOd | canopen-core/src/node.rs:1162-1235 | both PDO engines get the re-read configuration; run-time state is kept |
| NodeObject.Node.SyncHeartbeatFromOd | canopen-core/src/node.rs:505-540 | heartbeat producer and monitors re-read |
| NodeObject.Node.SyncConfigFromOd | canopen-core/src/node.rs:560-604 | SYNC consumer, window and producer re-read |
| NodeObject.Node.LeaveOperational | canopen-core/src/node.rs:633-642 | everything PDO-related that is pending is discarded |
| NodeObject.Node.ResetSyncState | canopen-core/src/node.rs:618-629 | SYNC and PDO run-time state restarts |
| NodeObject.Node.AbortAllSdoTransfers | canopen-core/src/node.rs:1240-1247 | every SDO channel is cancelled |
| NodeObject.Node.Reset | canopen-core/src/node.rs:1487-1502 | the reset sequence of NMT commands and of the application |
| NodeObject.Node.HandleNmt | canopen-core/src/node.rs:1481-1517 | an NMT frame |
| NodeObject.Node.OfferSyncTpdos | canopen-core/src/node.rs:1389-1398 | offers in order, keeps the refused, within one place per TPDO |
| NodeObject.Node.HandleSync | canopen-core/src/node.rs:1410-1439 | a pulse: commit, sample, send |
| NodeObject.Node.CommitPulse | canopen-core/src/node.rs:1419-1427 | the window opens and every buffered RPDO is committed in slot order |
| NodeObject.Node.SamplePulse | canopen-core/src/node.rs:1429-1430 | the due TPDOs are sampled |
| NodeObject.Node.ReceiveSync | canopen-core/src/node.rs:1470-1475 | a frame on the SYNC COB-ID is never offered to another service |
| NodeObject.Node.ProduceSync | canopen-core/src/node.rs:1061-1068 | the local pulse is applied only once the transport accepted the frame |
| NodeObject.Node.RetryPendingSyncTpdo | canopen-core/src/node.rs:1371-1399 | retry, expiry, and no second attempt at one instant |
| NodeObject.Node.ProcessRpdoFrame | canopen-core/src/node.rs:1441-1448 | RPDOs are processed only in Operational |
| NodeObject.Node.HandleSdoRequest | canopen-core/src/node.rs:1253-1361 | an SDO request with its commit and the configuration it reloads |
| NodeObject.Node.CommitDownload | canopen-core/src/node.rs:1337-1361 | a committed download reloads the services it touches |
| NodeObject.Node.DispatchFrame | canopen-core/src/node.rs:1450-1560 | routing by exact COB-ID in the node's order |
| NodeObject.Node.Boot | canopen-core/src/node.rs:984-1002 | boot-up, postponed while the transport would block |
| NodeObject.Node.BeginCall | canopen-core/src/node.rs:1009-1021 | latches synchronous triggers and begins every SDO poll |
| NodeObject.Node.ServiceSdo | canopen-core/src/node.rs:1032-1047 | services every SDO channel |
| NodeObject.Node.CheckDeadlines | canopen-core/src/node.rs:1080-1100 | deadline events in Operational, discarding outside |
| NodeObject.Node.SendHeartbeat | canopen-core/src/node.rs:1104-1110 | the due heartbeat, only when booted, confirmed on acceptance |
| NodeObject.Node.CheckMonitors | canopen-core/src/node.rs:1115-1123 | timeouts of all monitors, events bounded |
| NodeObject.Node.SendEmergencies | canopen-core/src/node.rs:1127-1139 | queued emergencies until one is refused |
| NodeObject.Node.PollTpdos | canopen-core/src/node.rs:1141-1148 | event-driven TPDOs, then the dirty set is cleared |
| NodeObject.Node.DrainReceived | canopen-core/src/node.rs:1023-1030 | dispatches until nothing is left |
| NodeObject.Node.Process | canopen-core/src/node.rs:977-1157 | the whole call; keeps the safety invariant |
| NodeObject.Node.RequestReset | canopen-core/src/node.rs:903-918 | the application's reset |
| NodeObject.Node.NotifyChanged | canopen-core/src/node.rs:936-948 | latches first, then the bounded dirty set |
| NodeObject.Node.DropGuard | canopen-core/src/node.rs:1619-1664 | latches exactly the TPDOs whose mapped objects changed |
| Bus.Subscription.Push | canopen-core/src/bus.rs:96-111 | the queue after a push under either policy, which wakers are taken, and that the overflow count changes if and only if the queue held exactly its capacity |
| Bus.Subscription.TryRecv | canopen-core/src/bus.rs:201-207 | takes the oldest frame |
| Bus.Subscription.Register | canopen-core/src/bus.rs:46-51 | registers a waker once |
| Bus.Subscription.TakeOverflowCount | canopen-core/src/bus.rs:284-286 | reads and clears the overflow count |
| Bus.Pushed | canopen-core/src/bus.rs:96-111 | a push gives up one frame if and only if the queue holds exactly its capacity; nothing else is lost or invented |
| Bus.DropNeedsFullQueue | canopen-core/src/bus.rs:96-111 | in any step of the bus a frame is given up only by a push to a live subscription whose filter accepts it and whose queue is at capacity before and after |
| Bus.NothingDroppedWithinCapacity | canopen-core/src/bus.rs:96-111 | over every run: while at most capacity accepted frames are unreceived, nothing is dropped |
| Bus.UnreceivedIsStored | canopen-core/src/bus.rs:96-111 | the accepted frames no task has received are exactly as many as those queued and dropped |
| Bus.ReceptionIsExact | canopen-core/src/bus.rs:201-207 | every attempt takes the oldest queued frame if there is one; no other step receives anything |
| WakerProtocol.StepKeepsSafe | canopen-core/src/bus.rs:45-63 | every atomic step of waiting tasks, providers and others keeps: a suspended unnotified task facing an available unit is about to be woken |
| WakerProtocol.QuiescentMeansServed | canopen-core/src/bus.rs:266-280 | with every provider at rest no suspended task is left unnotified before an available unit |
| WakerProtocol.FinishNotifies | canopen-core/src/bus.rs:57-63 | a provider's own remaining steps notify the tasks it will wake |
| Bus.StepKeepsOk | canopen-core/src/bus.rs:165-184 | every atomic step of publishers, receivers and subscribers keeps order, conservation and the waker invariant |
| Bus.NoLostWakeups | canopen-core/src/bus.rs:266-280 | in every interleaving a suspended unnotified receiver with a nonempty queue is about to be woken by a publisher in flight, whose own remaining steps notify it |
| Bus.OrderedAndConserved | canopen-core/src/bus.rs:96-111 | for every run each subscriber's received frames followed by its queue are in the one publish order, accepted frames are exactly received, queued and dropped ones, and under DropOldest the queue is the newest suffix |
| Bus.AcceptedIsFiltered | canopen-core/src/bus.rs:165-177 | the accepted publications are exactly those the filter accepts since the subscription, in publish order |
| TxQueue.Queue.TrySend | canopen-core/src/bus.rs:348-356 | enqueues if and only if there is space |
| TxQueue.Queue.TryPop | canopen-core/src/bus.rs:386-395 | takes the oldest frame and all waiting senders |
| TxQueue.StepKeepsOk | canopen-core/src/bus.rs:368-395 | every atomic step of senders and pump keeps order and the waker invariant |
| TxQueue.TrafficIsExact | canopen-core/src/bus.rs:348-395 | an attempt enqueues its frame if and only if a slot is free; only a pop of a nonempty queue removes one, the oldest |
| TxQueue.NoLostWakeups | canopen-core/src/bus.rs:368-395 | in every interleaving a suspended unnotified sender facing a free slot is about to be woken by a pump in the middle of a pop; popped followed by queued is exactly what was sent |

## Left out

- The SDO server, client and driver: behind `SdoSlot` the server is an abstract source of replies; only that it stays silent without a transfer is used.
- Validation of SDO downloads to communication objects (transmission-type ranges, COB-ID conflicts): the node model applies any committed write.
- An unsupported 0x1005 or 0x1019 value makes the source panic when it is re-read; the model keeps the previous SYNC configuration instead.
- Mirroring of resolved COB-IDs and of the error register into the dictionary, and the COB-ID uniqueness assertions at construction.
- The scratch buffer reused between configuration reads: a communication object narrower than the source expects would read stale bytes there.
- The node model treats mapping records as plain objects; their write arms are the subject of `MappingRecords`.
- The UTF-8 check on writes to visible strings, and dictionaries whose variable-length objects are unbounded.
- Blocking `recv` and `send`, condition variables and `run_pump` timing in `bus.rs`; dropping a subscription is modelled as no longer being served.
- Fairness: each waiting task is woken, but which of several waiting tasks obtains a frame is left open, as in the source.
- `emcy.rs` beyond a bounded queue of frames; the heartbeat convenience `poll`; async event signals.
- Token generation, EDS and DCF text import and export, the object dictionary macro's parsing, platform crates and examples: input and output, or single-branch code.
- Addressing a PDO by its CANopen number in the engines' query functions: the level query is stated by slot.
- Sync.PulsesAreNumberedAndSpaced: stated between configuration changes and resets, which restart the count.
