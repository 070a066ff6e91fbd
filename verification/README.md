# SimpleICS Pot: a verified model

SimpleICS Pot is a Modbus TCP decoy that animates a wet well: a tank, a pump and an inlet valve with
delayed feedback, a hysteresis controller, alarms and a start counter. Around it stand a protocol adapter
that mirrors the process into register memory and audits every request, a TCP session handler that queues
pipelined requests, and two tools that forward and package the audit events. This project models those
five components in Dafny and proves what they keep over every run.

The objects of the program whose methods update fields are classes here (`WetWellProcess`,
`ProcessProtocolAdapter`, `RequestHandler`, `ModbusTcpServer`, `Forwarder`, `Counters`, `Source`). Each
method is proved equal to a function on the object's abstract value, and the theorems are about runs of
those functions: sequences of ticks and writes, sequences of client requests, interleavings of session
steps, streams of log lines.

* **Process** - `RegisterMap`, `WetWell` (one write, one tick), `WetWellProcess` (the class),
  `WetWellRuns` (invariants, exact delay), `WaterBalance` (the level and the water, in litres),
  `Snapshots` (what the registers show), `LevelChanges`, `Envelope`, `Recovery`, `ShortCycling`,
  `Subdivision`, `NonInterference`, `Alarms`; `ShippedProfile`, `ShippedGuarantees` and `ReachableRange`
  instantiate them for the checked-in manifest.
* **Adapter** - `Mirror` (register and bit windows), `Protocol` (one request), `ProtocolAdapter` (the
  class), `RequestAreas` (what each function code serves and changes), `AtomicWrites`, `WriteOrder`,
  `AuditLog`, `RequestRuns` (client sessions are process runs, so every process theorem holds for them),
  `UnhandledWritable`.
* **Sessions** - `Framing` (the MBAP stream), `Session` (one delivery), `RequestHandler` (the classes),
  `ServerSystem` (all sessions and drain tasks as a step system), `SessionSlots`, `InheritedDeadline`,
  `QueueDiscipline`, `DeliveryStreams`, `Segmentation`, `Histories` (the ghost histories are what
  happened), `Attribution`, `SessionScripts` (exactly which requests are reported and answered),
  `StrandedRequests`, `AuditedServer` (sessions and process together).
* **Forwarder** - `TokenBucket`, `Forwarder`.
* **Packaging** - `Aggregation`, `SourceCollector`, `StixBundle`, `BundleProperties`.

Three results say where the code falls short of a first reading of it, each with its exact condition and a
concrete witness:

* A delivery whose decoding fails returns before the drain task is scheduled
  (`src/simpleics_pot/server.py:143-148` and `:174-175`), so requests accepted earlier in the same
  delivery can be left queued with nothing running them. `Sessions.StrandedExactly` says exactly which
  deliveries leave work so, and `StrandedRequests.RequestStranded` exhibits one. An exception outside the
  datastore guard, as when sending a reply fails (`server.py:261`), ends the drain task with the same
  effect (`QueueDiscipline.CrashLeavesQueue`, `StrandedRequests.CrashStrandsRequest`). `QueueDiscipline.QueueKept` shows that work waits without
  a task only after one of these two, and only until the next normal return.
* The multi-write is described as atomic on error (line 18 of the repository's own README).
  `RequestRuns.AtomicExactly` says exactly which writes are: all but those answered with a server failure
  whose first entry has a handler. With the checked-in manifest there are none of those
  (`AtomicWrites.AtomicMultiWrite`, `ReachableRange.ShippedServiced`); with a writable entry the process
  has no handler for, the earlier writes stay made and no event is emitted
  (`RequestRuns.ServerFailureKeepsPrefix`, `UnhandledWritable.WidenedLosesAtomicity`).
* A request that begins behind a completed one inherits the deadline of the data before it:
  `SessionSlots.FreshDeadlineExactly` says a partial request gets the full time limit exactly when the
  delivery found the buffer empty or came at the time it became nonempty, and
  `InheritedDeadline.SecondOldRequestCloses` closes a session for a request one second old under a limit
  of five.

Modelling choices that a reader should know: flows, levels and times are `real`; `round` is half-to-even;
the key of a register is an enumeration of the 21 keys the process snapshots; the decoder of complete
frames is an arbitrary function from frames to outcomes; a frame of fewer than eight bytes carries no
request; time does not pass an armed timer before the timer fires; a step that is not enabled leaves the
system unchanged, so every sequence of steps is an interleaving.

## Model

| member | source | states |
|---|---|---|
| `Numbers.RoundHalfEven` | src/simpleics_pot/model.py:172-185 | the result is within one half of the argument, and even when the argument lies exactly between two integers |
| `RegisterMaps.LoadIsFaithful` | src/simpleics_pot/register_map.py:60-70 | a manifest without duplicate keys or locations is indexed so that each lookup returns exactly the listed definition |
| `WetWell.CoerceWrite` | src/simpleics_pot/model.py:74-91 | exactly which values are accepted and which error each other one gets; an accepted value keeps its number and is boolean exactly for boolean registers |
| `WetWellProcesses.WetWellProcess.constructor` | src/simpleics_pot/model.py:30-39 | a new process is in the checked-in initial state |
| `WetWellProcesses.WetWellProcess.Restore` | src/simpleics_pot/model.py:41-72 | reset restores the complete initial state whatever came before |
| `WetWellProcesses.WetWellProcess.WriteRaw` | src/simpleics_pot/model.py:93-121 | the new state and the transition or error returned, for read-only, ill-typed, out-of-range, unhandled and accepted writes; a refused write changes nothing |
| `WetWellProcesses.WetWellProcess.StoreControl` | src/simpleics_pot/model.py:102-118 | each of the six handled keys changes its own value, an acknowledge pulse marks the active alarms, and any other key is reported as unhandled |
| `WetWellProcesses.WetWellProcess.RequestPump` | src/simpleics_pot/model.py:123-126 | only a changed target restarts the travel time |
| `WetWellProcesses.WetWellProcess.RequestValve` | src/simpleics_pot/model.py:128-131 | only a changed target restarts the travel time |
| `WetWellProcesses.WetWellProcess.AdvanceActuators` | src/simpleics_pot/model.py:133-145 | both actuators travel, a faulted pump arrives stopped, and the counter advances exactly on a rising edge |
| `WetWellProcesses.WetWellProcess.Integrate` | src/simpleics_pot/model.py:166-183 | level, flow readings, current and temperature after an interval of the flows the actuators allow |
| `WetWellProcesses.WetWellProcess.WatchLevel` | src/simpleics_pot/model.py:185-195 | alarms follow the rounded level and a cleared alarm loses its acknowledgement |
| `WetWellProcesses.WetWellProcess.Tick` | src/simpleics_pot/model.py:154-208 | the complete new state of a tick, refusal of intervals outside (0, 10], and when the closing checks fail |
| `WetWellRuns.ResetSound` | src/simpleics_pot/model.py:41-72 | the initial state satisfies the state invariant |
| `WetWellRuns.RunSound` | src/simpleics_pot/model.py:93-208 | every run of ticks and writes keeps the state invariant, so the closing checks of a tick never fail |
| `WetWellRuns.ExactDelay` | src/simpleics_pot/model.py:123-145 | over every run, travel time left is the delay less the tick time since the last change of target; feedback holds until it is zero and equals the target (and not fault) from then on, through any reversals |
| `WetWellRuns.TickTargets` | src/simpleics_pot/model.py:147-164 | each tick drives the valve to its command and the pump to its command in MANUAL; in AUTO a pump that runs or is asked to stays on above setpoint less hysteresis, and another starts at setpoint plus hysteresis |
| `WaterBalance.TickLevel` | src/simpleics_pot/model.py:166-171 | an accepted tick moves the level, in ten-thousandths of the capacity, by the nominal inlet if the valve is then open, less the full discharge times the commanded share of speed if the pump then runs, over its length; a tank that would run over or dry stops at its limit |
| `WaterBalance.MassBalance` | src/simpleics_pot/model.py:166-171 | over every run the litres held change by the litres that flowed in net, less spill, plus shortfall; spill accrues only in ticks that end full and shortfall only in ticks that end empty |
| `Envelopes.LevelEnvelope` | src/simpleics_pot/model.py:123-171 | from anywhere inside the control band, whatever travel is under way, automatic runs with bounded ticks, setpoints in [a, b] and speeds that keep up stay strictly inside the band widened by one delay and one tick of full draw below and of full inflow above |
| `Envelopes.NoAlarms` | src/simpleics_pot/model.py:147-195 | when that envelope clears both limits no alarm is ever active |
| `Recovery.LevelRecovers` | src/simpleics_pot/model.py:123-171 | from any level at or above the top of the band, wherever the pump is in its travel, automatic runs whose speeds exceed the inlet by a margin bring the level into that envelope, to stay, once the time after one delay draws the surplus and one delay's inflow at the margin's rate |
| `Recovery.AlarmsRecover` | src/simpleics_pot/model.py:147-195 | when the envelope clears both limits both alarms are off after that time |
| `ShippedProfile.ShippedWellFormed` | config/register_map.v1.json:29-345 | the checked-in manifest loads into faithful indexes |
| `ShippedProfile.ShippedConfigValid` | config/register_map.v1.json:18-345 | the checked-in manifest meets every bound the process relies on |
| `ShippedProfile.EntryFacts` | tools/validate_register_map.py:165-180 | every shipped default lies in range, and an entry is writable, has a write effect and has a handler together or not at all |
| `ShippedGuarantees.ShippedNeverAlarms` | src/simpleics_pot/model.py:147-195 | the shipped profile at its setpoint, ticked at most a second at a time with speeds that keep up, never raises an alarm whatever else is written |
| `ShortCycling.StartCounter` | src/simpleics_pot/model.py:133-140 | over every run the counter is the initial count plus the rising edges of the feedback, saturated at 65535 |
| `ShortCycling.NoShortCycling` | src/simpleics_pot/model.py:133-171 | at a fixed setpoint in AUTO, N starts need (N - 1) refills of the whole hysteresis band by the inlet, whatever speeds, valve writes, tick sizes, clamping and reversals |
| `Subdivision.ScheduleIsOneInterval` | src/simpleics_pot/model.py:154-196 | settled in MANUAL, a schedule of ticks acts as one interval of its total length |
| `Subdivision.TickSubdivision` | src/simpleics_pot/model.py:154-196 | settled in MANUAL, any two nonempty schedules of equal total time reach the same complete state |
| `NonInterference.IgnoredWrites` | src/simpleics_pot/model.py:147-196 | from states that agree but for the value the mode ignores, dropping the writes to it changes no other state component, over every run |
| `NonInterference.ControlNonInterference` | src/simpleics_pot/model.py:147-196 | two runs in one mode, from states and by writes that differ only in manual pump commands (AUTO) or setpoints (MANUAL), agree on everything else |
| `Snapshots.ResetShowsDefaults` | src/simpleics_pot/model.py:41-72 | the initial state shows every register at its default, nothing alarmed or acknowledged, both actuators at rest |
| `Snapshots.WriteReadsBack` | src/simpleics_pot/model.py:74-121 | exactly which writes are accepted; an accepted value reads back under its own register and every other register, but for the flag that follows the mode, is as before; a refused write changes nothing |
| `Snapshots.TickKeepsSettings` | src/simpleics_pot/model.py:154-243 | a tick leaves the writable registers, the fault and the constants as they are shown |
| `Snapshots.TickShows` | src/simpleics_pot/model.py:166-243 | after a tick the registers agree with one another: flows and current are those of the feedback and speed shown, alarms compare the level shown with the limits shown, automatic control is on in mode 1 |
| `Alarms.TickReports` | src/simpleics_pot/model.py:166-195 | after a tick: inlet and outlet flow in force and 300 plus 1200 times the speed as current, each rounded and 0 when shut or stopped; a temperature ten up and ten down over twenty minutes; each alarm compares the rounded level with its manifest limit |
| `Alarms.AcknowledgedExactly` | src/simpleics_pot/model.py:112-195 | over every run an alarm is acknowledged exactly when a pulse found it active and it has been active ever since |
| `Mirror.LosslessExactlyWhenFitting` | src/simpleics_pot/protocol.py:45-46 | encoding to sixteen bits and decoding by data type returns the value exactly when it fits the type |
| `Mirror.PackUnpack` | src/simpleics_pot/protocol.py:146-152 | unpacking registers to bits and packing them again is the identity |
| `Mirror.UnpackPack` | src/simpleics_pot/protocol.py:146-152 | packing bits and unpacking them again is the identity and yields sixteen-bit cells |
| `Mirror.CellCoherent` | src/simpleics_pot/protocol.py:127-137 | after synchronising, a mapped cell decodes to the live value exactly when that value fits, and an unmapped cell keeps its content |
| `Mirror.BitCoherent` | src/simpleics_pot/protocol.py:139-152 | after synchronising, a mapped bit is the truth of the live value, an unmapped one keeps its content, and cells stay registers |
| `Mirror.SyncOverrides` | src/simpleics_pot/protocol.py:154-165 | a later synchronisation overrides an earlier one entirely, so synchronising is idempotent |
| `Mirror.SyncSubWindow` | src/simpleics_pot/protocol.py:154-165 | synchronising commutes with taking a sub-window, in register and in bit areas |
| `Protocol.Resolve` | src/simpleics_pot/protocol.py:217-249 | a write resolves exactly when every address in its range is mapped and writable, to the definitions there |
| `Protocol.CoerceAll` | src/simpleics_pot/protocol.py:251-256 | values are all coerced, or none exactly when some single one is refused |
| `ProtocolAdapters.ProcessProtocolAdapter.constructor` | src/simpleics_pot/protocol.py:92-102 | a new adapter has delivered nothing |
| `ProtocolAdapters.ProcessProtocolAdapter.EmitEvent` | src/simpleics_pot/protocol.py:104-112 | numbering and delivery with no sink, a working one and one that raises |
| `ProtocolAdapters.ProcessProtocolAdapter.SyncRegisterArea` | src/simpleics_pot/protocol.py:127-137 | the in-place loop leaves exactly the synchronised cells |
| `ProtocolAdapters.ProcessProtocolAdapter.SyncBitArea` | src/simpleics_pot/protocol.py:139-152 | the in-place loop leaves exactly the packed synchronised bits |
| `ProtocolAdapters.ProcessProtocolAdapter.SyncWindow` | src/simpleics_pot/protocol.py:154-165 | the window is synchronised by area and the snapshot returned is the process as it stands |
| `ProtocolAdapters.ProcessProtocolAdapter.CollectKeys` | src/simpleics_pot/protocol.py:199-203 | the mapped keys of the window in address order |
| `ProtocolAdapters.ProcessProtocolAdapter.ResolveWrite` | src/simpleics_pot/protocol.py:217-249 | the definitions addressed, or the exact report of the first address that may not be written |
| `ProtocolAdapters.ProcessProtocolAdapter.ValidateAll` | src/simpleics_pot/protocol.py:252-256 | all coerced values or none, before anything is written |
| `ProtocolAdapters.ProcessProtocolAdapter.CommitAll` | src/simpleics_pot/protocol.py:271-275 | writes in order until the process refuses one, and the state then reached |
| `ProtocolAdapters.ProcessProtocolAdapter.ReadRequest` | src/simpleics_pot/protocol.py:198-214 | the report of a read carries the values the window serves |
| `ProtocolAdapters.ProcessProtocolAdapter.WriteRequest` | src/simpleics_pot/protocol.py:216-292 | state, answer, report and window of a write; refused writes leave process and window alone |
| `ProtocolAdapters.ProcessProtocolAdapter.Action` | src/simpleics_pot/protocol.py:167-292 | process, answer, event and window of every request, the window synchronised being that of coils for functions 1, 5 and 15, discrete inputs for 2, holding registers for 3, 6 and 16, input registers for 4, and none otherwise; with a working sink it is exactly one step of the audited run |
| `RequestAreas.ReadsServe` | src/simpleics_pot/protocol.py:22-214 | functions 1 to 4 read coils, discrete inputs, holding and input registers: the report holds exactly the registers defined in that window, in address order, each with its live value; nothing moves |
| `RequestAreas.OthersAreIllegal` | src/simpleics_pot/protocol.py:167-196 | any other function code is answered and reported as an illegal function and moves nothing |
| `RequestAreas.ReadBackIsSilent` | src/simpleics_pot/protocol.py:167-180 | the read-back of a write moves and reports nothing |
| `RequestAreas.WritesLand` | src/simpleics_pot/protocol.py:216-275 | with every writable entry serviced, after a successful write by function 5, 15 (coils), 6 or 16 (holding registers) each register in the window shows its value and every other register what it showed |
| `RequestAreas.WritesReported` | src/simpleics_pot/protocol.py:258-292 | with every writable entry serviced, the event of a successful write names the registers in address order, the values asked for, and what was shown before and is shown after |
| `RequestAreas.WritesRefused` | src/simpleics_pot/protocol.py:216-270 | with every writable entry serviced, a write is refused for its address exactly when some register in its window is missing or read-only, else for its value exactly when some value is of the wrong kind or out of range; a refusal is reported and moves nothing |
| `AtomicWrites.CoercionIdempotent` | src/simpleics_pot/model.py:74-91 | coercing a coerced value changes nothing |
| `AtomicWrites.WriteAnswer` | src/simpleics_pot/protocol.py:216-292 | the answer to a write is read off its addresses and values: illegal address, then illegal value, then server failure, else success; address and value errors leave the process unchanged |
| `AtomicWrites.AtomicMultiWrite` | src/simpleics_pot/protocol.py:251-275 | when every writable entry is serviced the server-failure branch is unreachable and any exception leaves the process unchanged |
| `WriteOrder.MultiWriteIsItsSingles` | src/simpleics_pot/protocol.py:251-275 | a successful multi-write leaves what its values leave as single-write requests sent in any order |
| `AuditLog.ReplayIsLive` | src/simpleics_pot/protocol.py:216-292 | at every point of every run of reads, writes and ticks, replaying the `after` maps over the defaults gives the live value of all six writable registers |
| `AuditLog.LogIsChained` | src/simpleics_pot/protocol.py:277-292 | events are numbered without gaps and each `before` map is the replay of the earlier log |
| `RequestRuns.RequestIsRun` | src/simpleics_pot/protocol.py:167-292 | a request moves the process exactly as the run of its accepted writes |
| `RequestRuns.ServeIsRun` | src/simpleics_pot/protocol.py:167-292 | every client session leaves the process where some run of ticks and writes does |
| `RequestRuns.ServerFailureKeepsPrefix` | src/simpleics_pot/protocol.py:271-275 | a server failure leaves made exactly the writes before the first entry without a handler, and reports nothing |
| `RequestRuns.PartialWriteWithoutHandler` | src/simpleics_pot/protocol.py:216-275 | every write answered with a server failure whose first entry has a handler leaves that entry written, for every write function, area and number of values |
| `RequestRuns.AtomicExactly` | src/simpleics_pot/protocol.py:216-275 | a write leaves the process unchanged on every exception, from every state, if and only if it is not one answered with a server failure whose first entry has a handler |
| `UnhandledWritable.WidenedLosesAtomicity` | src/simpleics_pot/protocol.py:271-275 | with the high-alarm limit declared writable, writing 7000 and 8200 from address 43 is answered with a server failure and the speed has moved |
| `ReachableRange.ShippedServiced` | config/register_map.v1.json:29-345 | every writable entry of the checked-in manifest has a write effect and a handler |
| `ReachableRange.ReachableValues` | src/simpleics_pot/model.py:154-243 | after every run of the shipped profile each register lies in its declared range and its encoding decodes to it |
| `ReachableRange.SessionWindowDecodes` | src/simpleics_pot/protocol.py:127-165 | in every client session of the shipped profile a synchronised register window decodes to the live values |
| `Framing.FramesPartition` | src/simpleics_pot/server.py:137-179 | complete frames followed by the tail are the stream: no byte lost or read twice |
| `Framing.FramesConcat` | src/simpleics_pot/server.py:135-179 | cutting a stream anywhere and carrying the tail over yields the same frames and tail |
| `Framing.FramesOfStream` | src/simpleics_pot/server.py:135-179 | a stream of well-formed ADUs with an incomplete tail decodes to exactly those ADUs and that tail |
| `Sessions.MeaningOfBytes` | src/simpleics_pot/server.py:135-204 | byte by byte what a delivery comes to: an unfinished frame waits; a complete one is silent, ends decoding with exception 1 under function 40 or exception 3 under its own function and identifiers, is a single-coil write of a value other than FF00 or 0000 and refused with exception 3, or is a request under its header's identifiers |
| `Sessions.ScanMeans` | src/simpleics_pot/server.py:135-213 | the decoding loop is determined by the list of frames: accepted requests, refused coil writes, the first rejected frame, or an overflow exactly when the requests do not fit |
| `Sessions.ReceiveDecodes` | src/simpleics_pot/server.py:113-213 | with decodable frames a delivery closes the session exactly when it exceeds 1024 bytes or 32 requests, and otherwise queues and refuses exactly what its frames say |
| `Sessions.StrandedExactly` | src/simpleics_pot/server.py:113-213 | a delivery leaves requests queued without a task exactly when no task was live and either it is oversized and the queue was not empty, or decoding fails without overflow and the queue or the frames before the failure held a request |
| `Sessions.NormalReturnDrains` | src/simpleics_pot/server.py:206-213 | after each normal return a nonempty queue has a live task, and a second task is never started beside a live one |
| `StrandedRequests.RequestStranded` | src/simpleics_pot/server.py:149-175 | a read and an undecodable frame in the first delivery leave the read queued with no task |
| `StrandedRequests.CrashStrandsRequest` | src/simpleics_pot/server.py:215-261 | two reads in one delivery, with sending the first reply failing, leave the second queued with no task |
| `RequestHandlers.ModbusTcpServer.RegisterConnection` | src/simpleics_pot/server.py:308-312 | admission exactly below the maximum, and the table afterwards |
| `RequestHandlers.ModbusTcpServer.UnregisterConnection` | src/simpleics_pot/server.py:314-315 | the handler leaves the table, present or not |
| `RequestHandlers.RequestHandler.constructor` | src/simpleics_pot/server.py:37-46 | a new handler is empty, unregistered and without timers |
| `RequestHandlers.RequestHandler.ConnectionMade` | src/simpleics_pot/server.py:48-65 | registered with its idle timer armed, or turned away, with the table to match |
| `RequestHandlers.RequestHandler.Unregister` | src/simpleics_pot/server.py:77-80 | the slot is given up once, and only if held |
| `RequestHandlers.RequestHandler.CancelTimers` | src/simpleics_pot/server.py:82-87 | neither timer stays armed |
| `RequestHandlers.RequestHandler.ArmIdleTimer` | src/simpleics_pot/server.py:89-95 | the idle deadline counts from now |
| `RequestHandlers.RequestHandler.Close` | src/simpleics_pot/server.py:67-80 | timers cancelled, slot freed, and closing again changes nothing |
| `RequestHandlers.RequestHandler.Admit` | src/simpleics_pot/server.py:186-204 | an undefined coil value is refused, a request is queued, or a full queue is cleared and the session closed |
| `RequestHandlers.RequestHandler.DecodeFrames` | src/simpleics_pot/server.py:137-204 | the loop's queue, replies, bytes used and reason for stopping are those of the frame-by-frame specification |
| `RequestHandlers.RequestHandler.ScheduleDrain` | src/simpleics_pot/server.py:206-212 | a task is started exactly when there is work and none is live |
| `RequestHandlers.RequestHandler.CallbackData` | src/simpleics_pot/server.py:135-213 | queue, replies, bytes used, task and table after a callback, for every way of returning |
| `RequestHandlers.RequestHandler.DataReceived` | src/simpleics_pot/server.py:113-133 | buffer, queue, timers, replies, task and table after one delivery |
| `SessionSlots.AdmittedExactly` | src/simpleics_pot/server.py:48-65 | a connection is admitted exactly while fewer than the maximum are open, and one turned away takes no slot |
| `SessionSlots.ActiveSetExact` | src/simpleics_pot/server.py:48-80 | in every interleaving the table is exactly the open sessions and never exceeds the maximum |
| `SessionSlots.DeadlinesKept` | src/simpleics_pot/server.py:82-133 | in every interleaving an open session is within the idle limit of its last delivery and within the incomplete limit of when its buffer last became nonempty |
| `SessionSlots.FreshDeadlineExactly` | src/simpleics_pot/server.py:123-133 | a delivery gives the partial request it leaves a full time limit if and only if it found the buffer empty or came at the time the buffer became nonempty, whatever requests it completes |
| `SessionSlots.PartialDataKeepsDeadline` | src/simpleics_pot/server.py:125-133 | while the buffer stays nonempty its deadline stays where it was, whatever requests are completed |
| `InheritedDeadline.SecondOldRequestCloses` | src/simpleics_pot/server.py:105-133 | a delivery that completes one request and begins the next is followed, one second later under a limit of five, by the session closing for that next request |
| `SessionSlots.DueSessionCloses` | src/simpleics_pot/server.py:89-133 | at its idle or its incomplete deadline a session cannot outlive it: no time can pass, and the timer closes it and frees its slot |
| `QueueDiscipline.OneDrainTask` | src/simpleics_pot/server.py:206-218 | in every interleaving at most one drain task of a session is running |
| `QueueDiscipline.QueueKept` | src/simpleics_pot/server.py:195-218 | in every interleaving at most 32 requests are queued; requests begin in arrival order, one at a time, also in sessions that exceeded a limit, and none is dropped except by an overflow, which closes the session; work waits without a task only after a decoding failure or a task ended by an exception, with no normal return since |
| `QueueDiscipline.CrashLeavesQueue` | src/simpleics_pot/server.py:215-261 | a drain task ended by an exception leaves whatever is queued with nothing running it |
| `Histories.HistoryStep` | src/simpleics_pot/server.py:113-261 | what one step adds to a connection's history: a delivery to an open session its time, its bytes and whether it exceeded 1024 bytes or 32 requests; a finished or failed request its place; nothing else anything |
| `Histories.DeliveriesAre` | src/simpleics_pot/server.py:113-133 | over every run the deliveries the theorems speak of are exactly those sent to the open session within its buffer limit |
| `DeliveryStreams.TakenFromDeliveries` | src/simpleics_pot/server.py:113-218 | in every interleaving and whatever bytes arrive, begun requests are a prefix of those the deliveries ask for, each decoded behind what the one before it left; unless an overflow closed the session, begun plus queued requests, exception responses and buffer are exactly theirs |
| `Segmentation.DecodedAsOneStream` | src/simpleics_pot/server.py:113-218 | for every cut into deliveries and every interleaving, begun plus queued requests, refused writes and the buffered tail are those of decoding the bytes at once |
| `Segmentation.SegmentationIndependence` | src/simpleics_pot/server.py:113-218 | two interleavings that delivered the same bytes agree on all of that |
| `Segmentation.WellFormedStream` | src/simpleics_pot/server.py:113-218 | a stream of well-formed ADUs is taken ADU by ADU and an unfinished one stays buffered |
| `Segmentation.QuietSessionServed` | src/simpleics_pot/server.py:206-218 | once no drain task runs, finished and queued requests are those of the clean stream in order, and none is queued unless an exception ended a task since the last normal return |
| `Attribution.EventsAttributed` | src/simpleics_pot/server.py:220-256 | in every interleaving each event carries the session, peer and transaction of the request that caused it, one its session began and its deliveries ask for; it has no context exactly when the peer is unknown |
| `Attribution.RepliesEcho` | src/simpleics_pot/server.py:215-261 | the transaction and unit identifiers of a connection's replies, in order, are a subsequence of those of the requests it began and of the header bytes the client sent, delivery by delivery and, in a clean session, as one stream |
| `Attribution.RepliesInOrder` | src/simpleics_pot/server.py:215-261 | a connection's replies answer its finished requests in order, each at most once |
| `SessionScripts.OneReplyEach` | src/simpleics_pot/server.py:220-261 | an answered request adds one reply, on its own connection and under its own transaction and unit identifiers; no other step adds any |
| `SessionScripts.ScriptFollowed` | src/simpleics_pot/server.py:215-261 | over every run a session has begun, in order, as many of the requests its deliveries ask for as it started; its events are caused by, and its replies are, exactly those of the requests it reported on and answered, whatever other sessions do |
| `SessionScripts.EveryRequestAnswered` | src/simpleics_pot/server.py:113-261 | a clean session that has gone quiet, with no request unanswered, has been sent exactly one reply to each request of its stream, in order and under its header bytes |
| `AuditedServer.InterleavedLogReplays` | src/simpleics_pot/protocol.py:167-292 | in every interleaving of sessions, drain tasks and ticks the event log is the audit log of the acts in the order they happened, replays to the live writable values, and is chained |
| `AuditedServer.InterleavedEventsAttributed` | src/simpleics_pot/server.py:220-256 | in every such interleaving each logged event carries the context of the session and request that asked for it, and reports that request's function, address and value count |
| `TokenBucket.ClosedForm` | tools/forward_events.py:137-156 | the tokens available at each attempt are the minimum over all windows ending there of the larger of the rate and one, plus the rate times the window's length, minus grants |
| `TokenBucket.RefusedExactly` | tools/forward_events.py:146-156 | an attempt is refused exactly when granting it would overflow some window |
| `TokenBucket.WindowBound` | tools/forward_events.py:146-156 | for nondecreasing times every window grants at most the larger of the rate and one, plus the rate times its length |
| `TokenBucket.BurstExactly` | tools/forward_events.py:137-156 | of a burst at the creation time attempt n is granted if and only if n + 1 is at most the larger of the rate and one |
| `TokenBucket.UnlimitedGrants` | tools/forward_events.py:147-148 | a rate of zero or less never refuses |
| `Forwarders.Forwarder.constructor` | tools/forward_events.py:118-144 | the bucket starts at the creation time with one second's worth of tokens, at least one, or none for a rate of zero or less; no socket |
| `Forwarders.Forwarder.TakeToken` | tools/forward_events.py:146-156 | the decision and the bucket left behind |
| `Forwarders.Forwarder.Reset` | tools/forward_events.py:203-209 | no socket is kept |
| `Forwarders.Forwarder.Send` | tools/forward_events.py:171-201 | exactly one counter moves, in the order rate limit, size, dry run, socket, and an unreachable collector drops the socket |
| `Forwarders.Run` | tools/forward_events.py:258-289 | the counters after the whole stream are those of the line-by-line specification |
| `Forwarders.RunAccounts` | tools/forward_events.py:171-289 | every line is counted exactly once, and what passed the bucket is exactly what it granted |
| `Forwarders.CountersMean` | tools/forward_events.py:171-289 | each counter counts exactly its own lines: over 65536 bytes or no event, refused a token, over 8192 bytes, sent or dry-run, unreachable |
| `Forwarders.ForwardedBound` | tools/forward_events.py:137-201 | over any stretch of the stream at most the larger of the rate and one, plus the rate times the elapsed time, is forwarded |
| `SourceCollectors.Source.constructor` | tools/build_stix_bundle.py:100-106 | a new source has seen nothing |
| `SourceCollectors.Source.Observe` | tools/build_stix_bundle.py:108-118 | observing an event merges its sighting into the record |
| `SourceCollectors.TakeLine` | tools/build_stix_bundle.py:125-147 | one line is skipped, counted, admitted to its source, or is the first to leave a bound |
| `SourceCollectors.Collect` | tools/build_stix_bundle.py:121-148 | success exactly with at most 5000000 events and 10000 addresses to package; then one distinct object for each address some event has as its origin, a global one unless private ones are asked for, holding what exactly those events say; otherwise the bound the first offending line exceeds |
| `Aggregation.TallyConcat` | tools/build_stix_bundle.py:121-148 | aggregating a concatenation is the pointwise merge of the parts |
| `Aggregation.OrderIndependent` | tools/build_stix_bundle.py:121-148 | every reordering of the lines gives the same sources and meets the same bounds |
| `Aggregation.TallyMeans` | tools/build_stix_bundle.py:108-148 | an address appears exactly when some event has it as its origin, a global one unless private ones are asked for, with the exact count, first, last, codes and write flag of those events |
| `Aggregation.PrivateLeftOut` | tools/build_stix_bundle.py:138-147 | unless they are asked for, an address seen only as a private origin is not packaged |
| `StixBundles.OrderMeans` | tools/build_stix_bundle.py:165 | ascending order puts a text first when it is a prefix or the smaller where the two first differ |
| `StixBundles.Sorted` | tools/build_stix_bundle.py:165 | exactly the addresses, each once, in ascending order |
| `StixBundles.BuildBundle` | tools/build_stix_bundle.py:151-218 | the objects for the sorted addresses, identity first and three per source |
| `BundleProperties.BundleDescribes` | tools/build_stix_bundle.py:151-218 | the bundle is the sensor's identity and, for each source in order, its address with an IPv6 kind exactly for a colon, its earliest and latest event times or the packaging time, its event count up to 999999999, its function codes and whether it wrote |
| `BundleProperties.ReferencesResolve` | tools/build_stix_bundle.py:151-218 | every creator and object reference names an object of the bundle |
| `BundleProperties.IdentifiersDistinct` | tools/build_stix_bundle.py:151-218 | no two objects share an identifier |
| `BundleProperties.ObservedInOrder` | tools/build_stix_bundle.py:169-184 | nothing is last observed before it is first observed |
| `BundleProperties.NumbersSumToKept` | tools/build_stix_bundle.py:121-185 | within the bounds the observed numbers sum to the events kept |

## Left out

- Floating-point rounding, infinities and NaN: quantities are reals, so `tick`'s finiteness check has nothing to refuse.
- Values of other Python types in writes (floats equal to 0 or 1, strings): values are integers or booleans.
- Keys outside the 21 the process snapshots, and the map-mismatch error of `snapshot_raw`: keys are an enumeration.
- WetWellProcesses.WetWellProcess.WriteRaw: does not model the lock or the `write_effect` text in the transition; calls are atomic.
- RegisterMaps.LoadIsFaithful: does not model reading the JSON document; `tools/validate_register_map.py` enters only as the facts proved of the shipped manifest.
- The event fields `unit_id`, `event_id`, `observed_at` and the constants of the schema: they do not depend on the process.
- Device memory, identity and PDU classes of the Modbus library; bit packing is modelled as least significant bit first.
- AuditedServer.InterleavedEventsAttributed: does not model how the library reads a protocol data unit into a function, address and values; that reading is a parameter.
- The body of `_drain_requests` and `_execute_request` as a method: awaits make them a step relation (`ServerSystem`), with any number of events per request, an optional reply, and an exception that may end the task.
- Broadcast, missing-device and device-failure responses: the reply's function and exception code are not modelled, only its identifiers.
- RequestHandlers.RequestHandler.DataReceived: does not model the library's own handling of the buffer on close; after an overflow the idle timer of a closed session is left armed as in the code, and closing again is harmless.
- Raised decoding errors on incomplete frames: the decoder is consulted on complete frames only.
- SessionSlots.DeadlinesKept: does not model timer lateness; a due timer fires before time moves on.
- Segmentation.DecodedAsOneStream: does not cover streams with undecodable frames, where the cut into deliveries matters because the code discards the rest of a failing delivery, or sessions that exceeded a limit; `DeliveryStreams.TakenFromDeliveries` covers both delivery by delivery.
- The forwarder's socket options, syslog formatting and periodic summaries; a send carries its datagram size and whether the socket would take it.
- Line matching, JSON, timestamp and address parsing in both tools: lines arrive parsed, times as integers, addresses as canonical text with a global flag.
- StixBundles.BuildBundle: does not model the UUIDs; identifiers are their seeds, taken to be injective, and descriptive text is left out.
- File writing, argument parsing, the runtime's logging filters and the repository's safety and demo scripts.
