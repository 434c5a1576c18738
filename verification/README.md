# IR Hub: a verified model

IR Hub captures infrared remote commands, stores them in a backend and replays
them. This project models its firmware and the learn half of its backend in
Dafny 4.11 and proves what they guarantee, down to one statement from wire to
wire (`EndToEnd.CapturedIsReplayed`). `dafny verify dfyconfig.toml` checks all
of it.

| file | models |
|---|---|
| `Config.dfy` | widths, limits, the message carried on the queues |
| `CaptureFilter.dfy` | the interval filter as a function of edge times |
| `CaptureRing.dfy` | the capture ring as a small-step machine: edge interrupt, idle alarm and task in any order |
| `CaptureTiming.dfy`, `CaptureSplits.dfy` | what dense alarms guarantee about where captures split |
| `CaptureUnit.dfy` | the same unit over its arrays, changed in place |
| `Crc32.dfy`, `CrcDivision.dfy`, `Ipv4.dfy`, `NetConfig.dfy` | the stored-settings record: checksum and its definition by division, address scanner, byte layout |
| `ConfigFlash.dfy` | the NOR flash sector that holds the record |
| `NotifyQueue.dfy`, `BleProvision.dfy`, `BleStaging.dfy`, `BleUnit.dfy` | the provisioning service: status ring, prepared writes, apply and hand-over; what is staged over a run; the same in place |
| `NetworkTask.dfy` | the network task as a machine whose steps each touch the shared state once |
| `NetworkSafety.dfy`, `NetworkTrials.dfy` | what holds over all its runs: settings and flash, trials |
| `NetworkLink.dfy`, `NetworkFallback.dfy`, `NetworkProgress.dfy` | what online rests on, the way back over BLE, commands that are heard |
| `NetworkStatus.dfy`, `NetworkReports.dfy`, `NetworkCurrent.dfy` | what a client is told, and what it starts from |
| `NetworkUnit.dfy` | the task's own loops over its variables, in place, refining the machine |
| `CText.dfy`, `JsonCodec.dfy`, `WireFormat.dfy` | the C string calls used, the bounded encoder and the tolerant scanner, the two payloads |
| `StrictJson.dfy` | a strict reader of JSON objects, as the backend has one |
| `MqttReceive.dfy` | reassembly of an incoming publish |
| `IrTransmit.dfy` | the replay loop and its deadlines |
| `LearnServer.dfy` | the backend's learn session, its timer and the button store |
| `EndToEnd.dfy` | capture to replay |

How the outside appears: link, broker, clock and flash outcomes are arbitrary
inputs of each step; a 64-bit timer reading is an argument; a radio callback or
a loss of power may come between any two steps of the network task; an
interrupt may come between any two memory accesses of the capture task. The
classes hold the same state as the firmware's static variables, and their
methods are proved to follow the corresponding machine step by step.

What the proofs found:

- The decoder does not skip a carriage return. One between a number and its
  comma ends the list early, and a prefix of the command is transmitted
  (`JsonCodec.ReturnBeforeComma`). All other whitespace is fine
  (`JsonCodec.OfferedAsSent` states both directions).
- Four notification slots keep a trial's failure reason until the loop head
  exactly if, unless it was sent, the client's own pushes are at most two, or at
  most one if no settings are in use, because Unprovisioned follows Reverted
  (`NetworkStatus.ReasonReachesClient`). Three refused applies lose it, two on
  a first provisioning (`NetworkStatus.RefusalsLoseTheReason`).
- A fragment of a prepared write that is refused for its length does not undo
  the ones before it, and an execute writes these: a text field then holds a
  cut value where a plain write of the whole is refused
  (`BleProvision.PreparedEqualsPlain` says exactly when the two agree).
- A second apply accepted before the task takes up the first leaves its own
  event behind, and the trial is dropped at its first waiting step; it is
  carried through exactly if no step of it has to wait
  (`NetworkTrials.TakenPressed`, `NetworkTrials.PressedTrial`). Dropped, neither
  apply is tried again (`NetworkTrials.SecondApplyIsLost`).
- A commit does not tell the BLE service. A client that connects afterwards,
  before BLE goes off, starts from the settings of before the commit, and a field
  it leaves unwritten goes back to them, although
  firmware/include/ble_provision.h:46-48 promises the current ones
  (`NetworkCurrent.ClientStartsFromUse`, `NetworkCurrent.StaleAfterCommit`).
- A configuration whose field is not NUL-terminated is invalid, but its record
  can be accepted, because serializing cuts the field
  (`NetConfig.AcceptedIff`, `NetConfig.CutFieldIsAccepted`).
- Line 92 of the firmware repository's README.md speaks of four capture
  buffers, firmware/include/config.h:41 says two; the ring is modelled for
  every size from 1 to 255.

## Model

| member | source | states |
|---|---|---|
| CaptureFilter.AcceptedIsGreedy | firmware/src/ir_capture.cpp:97-104 | The edges kept are the greedy ones: the first, then always the first edge at least 60 us after the last one kept; a glitch never moves the timebase |
| CaptureFilter.GreedyIsUnique | firmware/src/ir_capture.cpp:97-104 | That reading fixes the result: two sequences that meet it are equal, so it specifies the filter |
| CaptureFilter.IntervalsSum | firmware/src/ir_capture.cpp:64-104 | All accepted intervals, those past the end of the buffer too, add up to last accepted edge minus first edge |
| CaptureFilter.ReportSnoc | firmware/src/ir_capture.cpp:107-120 | One more interval: the frame count goes up exactly at gaps of 12000 us or more and saturates at 65535, counting past the buffer end; the interval is stored while there is room, else only the truncated flag is set |
| CaptureFilter.ReportMeans | firmware/src/ir_capture.cpp:84-120 | A report in full: one frame, the first one, and one more for every interval of 12000 us or more up to 65535; the first 800 intervals as they are; truncated exactly with more than 800; carrier 38000 |
| CaptureFilter.CleanEdgesAllAccepted | firmware/src/ir_capture.cpp:97-102 | A transmission without glitches keeps every edge |
| CaptureRing.FindFreeFinds | firmware/src/ir_capture.cpp:43-50 | The circular search returns a busy buffer only if all buffers are busy |
| CaptureRing.PostNeverFails | firmware/src/ir_capture.cpp:143-151 | When the alarm hands a capture over, the ready queue has room: the error branch is dead, for every ring size from 1 to 255 |
| CaptureRing.RefusedOnlyWhenFull | firmware/src/ir_capture.cpp:80-87 | A transmission is refused exactly when all buffers are in flight with the task |
| CaptureRing.CapturedEdge | firmware/src/ir_capture.cpp:97-120 | One accepted edge keeps the active buffer equal to the report of the edges so far |
| CaptureRing.StepKeepsInv | firmware/src/ir_capture.cpp:60-162 | Every edge interrupt, alarm and single task step keeps ownership, the capture in progress and the pipeline sound |
| CaptureRing.EveryInterleaving | firmware/src/ir_capture.cpp:60-215 | Under every interleaving of edge interrupt, alarm and word-by-word copy: delivered, held and queued messages are the completed captures in order, each once, intact in their buffers; busy buffers are exactly those queued plus the one held; the buffer being filled is not busy |
| CaptureRing.TaskDrains | firmware/src/ir_capture.cpp:201-215 | Left alone for a bounded number of steps the task has delivered every completed capture: none is stuck in the queue or half copied |
| CaptureTiming.NoClampInsideCapture | firmware/src/ir_capture.cpp:113-115 | With an alarm in every 2 ms window an edge extends a capture after less than 57000 us of quiet, so the uint16 clamp is never reached |
| CaptureTiming.ShortGapNeverSplits | firmware/src/ir_capture.cpp:126-141 | A quiet time below 55000 us since the last accepted edge never ends a capture, wherever the alarms fall and whatever glitches come in between |
| CaptureTiming.SureGapAlwaysSplits | firmware/src/ir_capture.cpp:126-141 | No capture of a densely alarmed run contains a quiet time of 57000 us or more |
| CaptureTiming.TightIsExact | firmware/src/ir_capture.cpp:113-115 | The pulses of such a capture are the exact distances of its accepted edges, the first 800 of them |
| CaptureTiming.PulsesAreExact | firmware/src/ir_capture.cpp:60-215 | Over every densely alarmed run each message delivered holds the exact distances of the accepted edges of its capture |
| CaptureTiming.MessagesFollowEdges | firmware/src/ir_capture.cpp:60-215 | Where no transmission is refused and no edge falls in the 2 ms in which the alarm's phase decides, that split is a function of the edge times alone: segment k of the edges, read greedily, is message k |
| CaptureSplits.MessagesAreSegments | firmware/src/ir_capture.cpp:60-215 | On every densely alarmed run, refused transmissions and edges at any distance included: the edges split into transmissions, never at less than 55000 us of quiet and always from 57000 us on; refused ones and single edges leave nothing, every other one is completed, in order, and each message delivered is the greedy reading of its own transmission; the count of refusals is the number of refused ones |
| CaptureUnit.Capture.FindFreeBuf | firmware/src/ir_capture.cpp:43-50 | The loop over the ring computes the specified search |
| CaptureUnit.Capture.GpioEdgeIsr | firmware/src/ir_capture.cpp:60-121 | The interrupt handler over the static arrays takes exactly the specified edge step |
| CaptureUnit.Capture.BeginTransmission | firmware/src/ir_capture.cpp:74-95 | First edge: claim and reset a free buffer, or refuse the transmission |
| CaptureUnit.Capture.ExtendCapture | firmware/src/ir_capture.cpp:97-120 | Further edge: glitch or recorded interval, in place |
| CaptureUnit.Capture.IdleTimeoutCb | firmware/src/ir_capture.cpp:126-162 | The alarm callback takes exactly the specified alarm step |
| CaptureUnit.Capture.FinishCapture | firmware/src/ir_capture.cpp:138-157 | End of a capture: mark, post, and look for the next free buffer |
| CaptureUnit.Capture.TaskReceive | firmware/src/ir_capture.cpp:203 | The task takes the oldest index from the ready queue |
| CaptureUnit.Capture.TaskReadCounters | firmware/src/ir_capture.cpp:205-212 | The three counters are read one access at a time |
| CaptureUnit.Capture.TaskCopyWord | firmware/src/ir_capture.cpp:213 | One word of the copy, so that an interrupt may come between any two |
| CaptureUnit.Capture.TaskRelease | firmware/src/ir_capture.cpp:213-215 | The end of the copy frees the buffer and leaves the message formed |
| Crc32.ComputeCrc32 | firmware/src/net_config.cpp:98-108 | The bitwise loop computes the register's CRC, which is the standard's by CrcDivision.CrcIsCheckSequence |
| Crc32.StepBitInjective | firmware/src/net_config.cpp:105 | One step of the register loses nothing: different registers stay different |
| Crc32.FeedWord | firmware/src/net_config.cpp:103-106 | Feeding four bytes is xor with the word and 32 register steps |
| Crc32.WindowInjective | firmware/src/net_config.cpp:98-108 | Feeding a window of 32 bits, at any bit offset, is injective in the window |
| Crc32.MatchesIffResidue | firmware/src/net_config.cpp:123 | A CRC field matches its data exactly when the register over both ends in 0xDEBB20E3 |
| Crc32.BurstMovesRegister | firmware/src/net_config.cpp:98-108 | A change confined to 32 consecutive bits always changes the final register |
| Crc32.BurstIsDetected | firmware/src/net_config.cpp:98-132 | So no such change of data followed by its CRC, also one that straddles the two, is accepted |
| Crc32.OwnCrcMatches | firmware/src/net_config.cpp:123 | Data followed by its own CRC is accepted |
| CrcDivision.CrcIsCheckSequence | firmware/src/net_config.cpp:98-108 | For every block the CRC is, bit for bit, the frame check sequence of section 3.2.9 of IEEE 802.3: the block's bits, the first 32 complemented, times x^32, divided over GF(2) by the generator given by its exponents, the remainder complemented; the low bit is the highest power |
| CrcDivision.RegisterDivides | firmware/src/net_config.cpp:103-106 | From any register and any position in the block, the bit steps that remain leave the remainder of long division |
| CrcDivision.BitsIdentifyWord | firmware/src/net_config.cpp:107 | Those 32 bits determine the word |
| Ipv4.ParseIpv4 | firmware/src/net_config.cpp:59-80 | The scanning loops accept and read exactly what the split rule does on the C string |
| Ipv4.ScanIsPageRule | frontend/app.js:1135-1139 | The left-to-right scanner agrees with the page's rule on every string: four parts of 1 to 3 digits, each at most 255, not all zero, and the values read are those of the parts |
| Ipv4.PrintReadsBack | firmware/src/net_config.cpp:59-80 | Every address but 0.0.0.0 is read back from its dotted form, and 0.0.0.0 is refused |
| NetConfig.BoundedLen | firmware/src/net_config.cpp:49-55 | Length up to the first NUL, and whether there is one |
| NetConfig.CheckFields | firmware/src/net_config.cpp:82-96 | The check chain names the first invalid field, by the declarative rules of each field |
| NetConfig.CopyField | firmware/src/net_config.cpp:118-121 | memset plus strncpy leaves the C string, cut to the last cell, and zeros behind it |
| NetConfig.SerializeInto | firmware/src/net_config.cpp:110-125 | Refuses a short buffer untouched, else writes exactly the specified 256 bytes and nothing behind them |
| NetConfig.PageLayout | firmware/src/net_config.cpp:22-41 | The page byte by byte: 49 52 4E 43, version 1, size 163, fields at 8, 41 and 105, port at 169 low byte first, checksum at 171, 0xFF from 175 on |
| NetConfig.HeaderNeeded | firmware/src/net_config.cpp:127-131 | Only a page that begins with these eight bytes is read |
| NetConfig.RoundTrip | firmware/src/net_config.cpp:110-143 | Every valid configuration reads back as its zero-filled canonical form |
| NetConfig.AcceptedIff | firmware/src/net_config.cpp:110-143 | For any configuration at all, what is written for it is read back exactly if its canonical form is valid; that is its own validity except where a field has no NUL and the copy is cut |
| NetConfig.CutFieldIsAccepted | firmware/src/net_config.cpp:118-121 | That case: an SSID field full to its last cell is invalid, yet its record is accepted |
| NetConfig.ParsedIsValid | firmware/src/net_config.cpp:127-143 | Whatever is accepted satisfies the validity rules |
| NetConfig.TailNeverStored | firmware/src/net_config.cpp:116-121 | Bytes behind a field's NUL have no influence on the page |
| NetConfig.SerializeIsStable | firmware/src/net_config.cpp:110-143 | Serializing what was parsed gives the same page again |
| NetConfig.PageIdentifiesSettings | firmware/src/net_config.cpp:110-125 | Two valid configurations share a page exactly when their texts and port agree |
| NetConfig.DamagedRecordRejected | firmware/src/net_config.cpp:127-132 | Any change to an accepted record confined to 32 consecutive bits of bytes 0..174 makes it rejected |
| NetConfig.BuildDefaultsIff | firmware/src/net_config.cpp:145-162 | Build settings are used exactly if the SSID is set and not the placeholder and each text and the port obeys its rule, and then the hub runs on exactly these texts and this port |
| ConfigFlash.SavedSurvivesReboot | firmware/src/net_config_flash.cpp:63-93 | If save reports success, the next load returns these settings |
| ConfigFlash.SaveSucceedsIff | firmware/src/net_config_flash.cpp:80-93 | Save reports success exactly when the settings are valid, the image is clear, both flash operations ran and no worn cell spoils this record |
| ConfigFlash.StoppedEarlyKeepsFlash | firmware/src/net_config_flash.cpp:80-100 | A save or an erase that is stopped before the sector is erased says so and leaves every cell, and what the next boot loads, as it was |
| ConfigFlash.ReadBackIff | firmware/src/net_config_flash.cpp:85-90 | On NOR cells the read-back equals the page exactly when every cell it needs set can be set |
| ConfigFlash.HealthySaves | firmware/src/net_config_flash.cpp:80-93 | A healthy sector takes every valid record |
| ConfigFlash.ErasedHoldsNothing | firmware/src/net_config_flash.cpp:63-100 | After an erase a boot finds no stored record |
| ConfigFlash.ConfigStore.Load | firmware/src/net_config_flash.cpp:63-78 | Flash record, else build defaults, else none |
| ConfigFlash.ConfigStore.DoErase | firmware/src/net_config_flash.cpp:46 | Every cell that can be set is set |
| ConfigFlash.ConfigStore.DoProgram | firmware/src/net_config_flash.cpp:47 | Bits are only cleared, and only in the record page |
| ConfigFlash.ConfigStore.Save | firmware/src/net_config_flash.cpp:80-93 | Validate, erase, program, read back: result and sector are the specified ones on every path |
| ConfigFlash.ConfigStore.Erase | firmware/src/net_config_flash.cpp:95-100 | Result and sector of an erase |
| NotifyQueue.RunKeepsInv | firmware/src/ble_provision.cpp:106-122 | Over every run at most four statuses wait, what went out is in order without repeats, and what was dropped had four newer ones behind it |
| NotifyQueue.KeepsTheNewest | firmware/src/ble_provision.cpp:106-122 | What is sent is an in-order part of what was pushed; an unsent status still waits exactly while fewer than four newer ones were pushed; the newest is never the one dropped |
| NotifyQueue.StillWaits | firmware/src/ble_provision.cpp:106-122 | From any state of the queue: a status that has not gone out still waits exactly while at most three others were pushed since |
| NotifyQueue.RingTakes | firmware/src/ble_provision.cpp:119-120 | Writing behind the last slot appends to what the ring holds |
| NotifyQueue.RingDrops | firmware/src/ble_provision.cpp:115-117 | Advancing the head drops the oldest |
| BleProvision.StatusReadsBack | firmware/src/ble_provision.cpp:107-111 | Status to eight bytes and back, both ways, so a fresh subscriber is told exactly the stored status |
| BleProvision.StepKeepsInv | firmware/src/ble_provision.cpp:141-317 | Every callback keeps: the prepared buffer is never overrun and clear behind what was written, staged texts are NUL-terminated, only valid settings are handed over, no command is ever prepared |
| BleProvision.Run | firmware/src/ble_provision.cpp:141-317 | So this holds along every run of callbacks |
| BleProvision.PreparedEqualsPlain | firmware/src/ble_provision.cpp:210-253 | From a reset buffer, contiguous fragments of one non-command characteristic (section 3.4.6 of Bluetooth Core Specification Vol 3 Part F) pass validation; all are accepted exactly if the value fits; the execute writes the text that fitted; that is what a plain write of the whole value does exactly if the value fits, or it is a port of which the accepted fragments are not two bytes |
| BleProvision.MixedNeverValidates | firmware/src/ble_provision.cpp:228-240 | A prepared queue fails validation exactly when it mixes two characteristics |
| BleProvision.MixedIsRefused | firmware/src/ble_provision.cpp:239-240 | The validation before an execute refuses exactly the mixed ones |
| BleProvision.SubscribedIff | firmware/src/ble_provision.cpp:190-201 | A client is subscribed exactly by the value 1, and is then told the stored status; no other value queues anything |
| BleProvision.OnlyApplyHandsOver | firmware/src/ble_provision.cpp:158-173 | Settings are handed over exactly by a plain apply command on valid staged settings, and are those |
| BleProvision.OnlyForgetAsks | firmware/src/ble_provision.cpp:158-178 | A wipe is signalled exactly by a plain forget command |
| BleProvision.TakeGetsTheSnapshot | firmware/src/ble_provision.cpp:167-171 | Whatever the client writes after an accepted apply, short of another apply, the network task takes the settings staged then, once |
| BleProvision.RefusedApply | firmware/src/ble_provision.cpp:160-166 | An apply of invalid settings hands over nothing and tells a subscribed client 8 with the first field that is wrong: 1 network name, 2 password, 3 host, 4 port |
| BleStaging.SetsItsField | firmware/src/ble_provision.cpp:134-157 | An accepted value sets exactly the field of its characteristic: the text up to its first NUL, or the port low byte first; the other three stay |
| BleStaging.CallbackStages | firmware/src/ble_provision.cpp:141-317 | A connection starts from the current settings, its end wipes them, an accepted write replaces its field, and no other callback touches them |
| BleStaging.StagedIsLastWritten | firmware/src/ble_provision.cpp:141-317 | Over every run of callbacks each staged field is what was last written to its characteristic, plainly or prepared, since the client connected, and before that what was current then |
| BleStaging.AppliedAsWritten | firmware/src/ble_provision.cpp:158-173 | An apply after any run is accepted exactly if the staged settings are valid, and hands over in each field what was last written to it |
| BleStaging.FourWritesApplied | firmware/src/ble_provision.cpp:141-173 | Once each of the four has been written, the settings handed over are these four values |
| BleStaging.CancelledIsGone | firmware/src/ble_provision.cpp:242-253 | What was prepared before a cancel never reaches a field: a later execute without new fragments writes nothing |
| BleUnit.Provisioner.ResetPrepared | firmware/src/ble_provision.cpp:87-92 | Clears the prepared write |
| BleUnit.Provisioner.Enqueue | firmware/src/ble_provision.cpp:114-120 | The ring in its four slots keeps the newest |
| BleUnit.Provisioner.PushTheStatus | firmware/src/ble_provision.cpp:106-122 | Stores the status and queues it for a subscriber |
| BleUnit.Provisioner.OnCanSendNow | firmware/src/ble_provision.cpp:255-264 | Sends the oldest waiting status, if there is one and a client |
| BleUnit.Provisioner.OnConnect | firmware/src/ble_provision.cpp:293-300 | A new client starts from the current settings, unsubscribed, with an empty queue |
| BleUnit.Provisioner.OnDisconnect | firmware/src/ble_provision.cpp:303-312 | A disconnect wipes what was staged and signals the network task |
| BleUnit.Provisioner.ApplyTheValue | firmware/src/ble_provision.cpp:141-183 | A complete value: length rules, field and command, as BleStaging.SetsItsField pins them |
| BleUnit.Provisioner.OnApply | firmware/src/ble_provision.cpp:160-172 | Validate, then snapshot and signal, or refuse and report |
| BleUnit.Provisioner.OnWriteCcc | firmware/src/ble_provision.cpp:214-225 | Subscribing pushes the stored status |
| BleUnit.Provisioner.OnPrepare | firmware/src/ble_provision.cpp:228-237 | One fragment into the buffer |
| BleUnit.Provisioner.OnExecute | firmware/src/ble_provision.cpp:242-246 | Apply what was prepared, then reset |
| BleUnit.Provisioner.PowerOn | firmware/src/ble_provision.cpp:362-369 | start() |
| BleUnit.Provisioner.PowerOff | firmware/src/ble_provision.cpp:371-385 | stop() |
| BleUnit.Provisioner.TakeCandidate | firmware/src/ble_provision.cpp:396-403 | take_candidate(): hands the snapshot over once and wipes it |
| NetworkTask.TaskKeeps | firmware/src/mqtt_manager.cpp:423-552 | Every step of the network task keeps the invariant: settings in use are valid and the ones last loaded or committed, the candidate is kept only on trial, trial counters are what the history says, settings handed over still have their event, the flash holds what it was last told to keep, and every entry of the history is one that may follow the entries before it |
| NetworkTask.StepKeeps | firmware/src/mqtt_manager.cpp:116-552 | So does every callback of the radio and a loss of power, between any two steps |
| NetworkTask.Run | firmware/src/mqtt_manager.cpp:116-552 | The invariant holds along every run: any interleaving of task steps, callbacks and power losses |
| NetworkTask.CommittedHistory | firmware/src/mqtt_manager.cpp:444-449 | A commit makes the candidate the settings in use, wipes it, and leaves the flash as save said |
| NetworkTask.AttemptAllowed | firmware/src/mqtt_manager.cpp:434-463 | A bring-up that ends was one the trial still had left, or one with the settings in use |
| NetworkSafety.HubStaysReachable | firmware/src/mqtt_manager.cpp:505-551 | At every loop head of every run: settings in use are valid, without settings BLE is on, with BLE off the counters are below 3 and 5, no candidate is kept outside a trial, and settings handed over still have the event that makes the task take them |
| NetworkFallback.FailuresBringBle | firmware/src/mqtt_manager.cpp:505-551 | At every loop head of every run the counters are the failed attempts the history tells of since the settings in use last came online, a trial, a forget or a boot; with BLE off these are fewer than 3 on Wi-Fi and fewer than 5 on the broker |
| NetworkFallback.StepCounts | firmware/src/mqtt_manager.cpp:525-550 | Every step keeps them so, each failure counted once |
| NetworkSafety.NoLockout | firmware/src/mqtt_manager.cpp:422-475 | Over any stretch of any run without a commit, forget or reboot, whatever trials failed or were aborted in it, the flash stays exactly as it was, and so do the settings in use unless the stretch begins in the middle of loading them |
| NetworkSafety.SettingsChangeOnlyThen | firmware/src/mqtt_manager.cpp:395-484 | In the history of every run a load comes only first of all or right after a reboot or a wipe, and a commit only right after a bring-up of this very candidate, the one taken last, came online |
| NetworkSafety.HandoffIsLastApply | firmware/src/ble_provision.cpp:158-173 | Over every run, what is handed over is what the last accepted apply had staged |
| NetworkSafety.WipesAreOwed | firmware/src/mqtt_manager.cpp:477-484 | Over every run, wipes done and signalled never outnumber the forget commands received |
| NetworkSafety.TakenAndWipedOnCommand | firmware/src/mqtt_manager.cpp:424-484 | Over every run, a candidate taken holds the settings of the last accepted apply, and a wipe answers a forget command no earlier wipe has answered |
| NetworkSafety.TrialsBoundedInRuns | firmware/src/mqtt_manager.cpp:434-463 | No trial of any run makes more than W+M-1 failed attempts |
| NetworkSafety.SavedIsLoadedAgain | firmware/src/mqtt_manager.cpp:445-452 | After a commit that reported it was saved, until the next commit or forget, a power loss at any point of any run boots into exactly these settings |
| NetworkSafety.ForgetStartsOver | firmware/src/mqtt_manager.cpp:477-484 | A forget on a sector that erases leaves the build defaults or nothing |
| NetworkLink.SkipsJoinIff | firmware/src/mqtt_manager.cpp:167-171 | Over every run a bring-up skips the join exactly if the network that is up was asked for with this name and this password, and the link is up |
| NetworkLink.OnlineOnOwnNetwork | firmware/src/mqtt_manager.cpp:321-339 | Over every run, settings that come online, and settings that are committed, do so while the network that is up is one asked for with exactly their name and password |
| NetworkLink.SessionEndsIff | firmware/src/mqtt_manager.cpp:374-391 | Over every run, a look at the link ends the session exactly if it is the fifth in a row that does not read joined, or the client is not connected any more; exactly in the first case the network counts as lost |
| NetworkLink.StepAir | firmware/src/mqtt_manager.cpp:155-217 | Every step keeps the hub's record of the link equal to what happened on the air |
| NetworkCurrent.ClientStartsFromUse | firmware/src/ble_provision.cpp:293-296 | Over every run, a client that connects starts from the settings in use, unless a commit came since they were loaded |
| NetworkCurrent.StaleAfterCommit | firmware/src/mqtt_manager.cpp:444-456 | The case that fails: a commit does not refresh what BLE holds, so a client that connects after it starts from the settings before it |
| NetworkCurrent.OffIsWiped | firmware/src/ble_provision.cpp:371-385 | When BLE goes off, staged and current settings, the prepared write and the queue are gone |
| NetworkTrials.TrialOutcome | firmware/src/mqtt_manager.cpp:424-475 | Over every run of a trial: it ends by a commit of its own candidate, by giving up with no attempt left, or by being dropped; it is dropped exactly if one of its waiting steps found an apply or a forget signalled, and only then is an attempt cut short; dropped or out of attempts, settings in use and flash are as before |
| NetworkTrials.PressedTrial | firmware/src/mqtt_manager.cpp:200-203 | A trial that begins with an apply or a forget signalled is dropped exactly if any step of it waits; otherwise it is carried through |
| NetworkTrials.QuietTrial | firmware/src/mqtt_manager.cpp:464-467 | A trial that begins without one, and during which none is accepted, is never dropped |
| NetworkTrials.TakenPressed | firmware/src/mqtt_manager.cpp:505-516 | From the loop head where an apply is taken up: the trial begins with an apply or a forget signalled exactly if one came after signals were last collected, up to the moment the candidate is taken; the candidate is the one handed over last |
| NetworkTrials.SecondApplyIsLost | firmware/src/mqtt_manager.cpp:425-442 | The case that fails: a second apply before the first is taken up loses both, when nothing is heard of the network at first; its settings are taken, dropped at the first turn of the join loop, and nothing is left to take |
| NetworkProgress.CommandsAreHeard | firmware/src/mqtt_manager.cpp:116-552 | Whatever link, broker and client do, an apply or a forget that is signalled is taken up within 21 steps of the task: every wait gives way to it, a session ends for it, and no signal is lost |
| NetworkProgress.ForgetGoesFirst | firmware/src/mqtt_manager.cpp:505-516 | At the loop head a forget goes before an apply, which stays signalled |
| NetworkProgress.BleGoesOff | firmware/src/mqtt_manager.cpp:359-366 | A round online decides to turn BLE off exactly if its client has left, or there has been none for 20 s, or after 5 minutes |
| NetworkProgress.ClientKeepsBle | firmware/src/mqtt_manager.cpp:359-366 | BLE once on stays on through trials and sessions: for 5 minutes with a client that stays connected, for 20 s in any case |
| NetworkStatus.CallbackQueues | firmware/src/ble_provision.cpp:106-122 | Every callback of a client that stays subscribed does to the queue exactly this: subscribing again and a refused apply push one status, the radio's turn sends one, all others leave it |
| NetworkStatus.ReasonReachesClient | firmware/src/mqtt_manager.cpp:460-474 | From the last failure of a trial to the loop head, with any callbacks of a subscribed client before each report: unless it was sent, the reason still waits exactly if the client's own pushes, and Unprovisioned where no settings are in use, are at most two |
| NetworkStatus.RefusalsLoseTheReason | firmware/src/mqtt_manager.cpp:470-474 | The case that fails: with k refused applies before Reverted and no chance to send, the reason is lost exactly from k = 3 on, or from k = 2 on if no settings are in use |
| NetworkReports.AttemptsTold | firmware/src/mqtt_manager.cpp:321-339 | Over every run, while BLE is on: joining is told as 2, connecting as 4, a failure as 3 or 5 with its reason; the attempt number is the count of attempts that failed, plus the one in progress; the source says whose settings they are |
| NetworkReports.JoinReasons | firmware/src/mqtt_manager.cpp:188-217 | One turn of the join loop: 2 is a refused password, 1 nothing found in time, 3 anything else; a link that is up when looked at again counts as joined |
| NetworkReports.JoinDeadline | firmware/src/mqtt_manager.cpp:186-188 | Its deadline is 15 s after the request |
| NetworkReports.BrokerReasons | firmware/src/mqtt_manager.cpp:270-287 | One turn of the wait for the broker: 1 timeout, 2 refused, 3 connection lost |
| NetworkReports.BrokerDeadline | firmware/src/mqtt_manager.cpp:268-269 | Its deadline is 10 s after the request |
| NetworkReports.CommitTold | firmware/src/mqtt_manager.cpp:445-456 | Over every run, after a commit a client is told Online from the stored settings exactly if the save succeeded, and then a reboot at that moment would load these settings; else SaveFailed for the candidate |
| NetworkReports.OthersTold | firmware/src/mqtt_manager.cpp:470-474 | Online as 6 with the address, Reverted as 7, without settings 0, each with its source |
| NetworkUnit.Hub.OnCallback | firmware/src/ble_provision.cpp:141-317 | A callback between two steps of the task |
| NetworkUnit.Hub.LoadActive | firmware/src/mqtt_manager.cpp:395-418 | Settings come from flash, build or none, the history says which, and without any the radio is on |
| NetworkUnit.Hub.HandleForget | firmware/src/mqtt_manager.cpp:477-484 | Exactly one wipe and one load are added to the history; the flash is what the erase left, and the settings in use are what that flash or the build holds |
| NetworkUnit.Hub.CheckJoined | firmware/src/mqtt_manager.cpp:167-171 | Joined exactly if the network that is up was asked for with this name and this password, and the link is up |
| NetworkUnit.Hub.JoinTurn | firmware/src/mqtt_manager.cpp:188-217 | One turn of the join loop with its link codes, the repeated request and the timeout: joined, failed with its reason, aborted, or on |
| NetworkUnit.Hub.WifiJoin | firmware/src/mqtt_manager.cpp:176-217 | The loop ends, in one of its three ways, and says what it adds to the history |
| NetworkUnit.Hub.MqttStart | firmware/src/mqtt_manager.cpp:229-265 | The request to the broker is taken and the wait begins, or the attempt fails with reason 3 |
| NetworkUnit.Hub.AwaitTurn | firmware/src/mqtt_manager.cpp:270-287 | One turn of the wait for the broker: the answer is mapped to its reason, the timeout counts, an apply or a forget aborts |
| NetworkUnit.Hub.MqttWait | firmware/src/mqtt_manager.cpp:268-289 | That loop ends, in one of its three ways |
| NetworkUnit.Hub.BringUp | firmware/src/mqtt_manager.cpp:321-339 | Join unless joined already, then connect: whatever happens on the way, exactly one attempt of these settings is added to the history, with the outcome returned, and settings in use and flash are as before; online, the network that is up is the one these settings name |
| NetworkUnit.Hub.CheckLink | firmware/src/mqtt_manager.cpp:374-391 | The readings in a row that were not joined are counted, the fifth marks Wi-Fi as lost; that one or a client no longer connected ends the session |
| NetworkUnit.Hub.RunOnline | firmware/src/mqtt_manager.cpp:343-393 | The online loop changes neither settings, flash, candidate nor history, and comes back to the loop head |
| NetworkUnit.Hub.CommitAndServe | firmware/src/mqtt_manager.cpp:443-458 | The candidate is in use, wiped, and the one commit added to the history; saved or not as the entry says |
| NetworkUnit.Hub.FailTrial | firmware/src/mqtt_manager.cpp:460-467 | A failed attempt is counted, and leads to the next attempt or to giving up with settings in use and flash as before |
| NetworkUnit.Hub.HandleCommit | firmware/src/mqtt_manager.cpp:424-475 | The trial loop ends by a measure that each failed attempt decreases; nothing stays staged; if anything was handed over, either the very candidate it took is in use and committed by the last entry, or the last entry gives up and settings and flash are as before |
| NetworkUnit.Hub.UseSettings | firmware/src/mqtt_manager.cpp:525-550 | One round with the settings in use adds exactly one attempt of them, adds one to the counter of the kind that failed or clears both, and changes neither settings nor flash |
| NetworkUnit.Hub.RunTask | firmware/src/mqtt_manager.cpp:491-552 | The task from start-up on: every state is one the machine reaches by the same events; back at the loop head settings in use are valid and the ones last loaded or committed, or the radio is on; with BLE off fewer than 3 and 5 attempts failed |
| JsonCodec.Snprintf | firmware/src/json_helper.cpp:10-14 | Writes as much of the text as fits, then a NUL, nothing behind it, and returns the full length |
| JsonCodec.EncodeIrMessage | firmware/src/json_helper.cpp:8-30 | Succeeds exactly when the whole text is shorter than the buffer, and then the buffer holds it |
| JsonCodec.RenderFits | firmware/include/config.h:88-90 | With at most 800 pulses the text has at most 4876 characters, so the 8192-byte buffer always suffices |
| StrictJson.RenderIsJson | firmware/src/json_helper.cpp:8-30 | What the hub publishes is strict JSON (section 2 of RFC 8259), and read as such denotes exactly the message, for every message |
| JsonCodec.DecodeIrMessage | firmware/src/json_helper.cpp:35-84 | The scanning loop computes the specified decoding |
| JsonCodec.OfferedAsSent | firmware/src/mqtt_manager.cpp:77-88 | For any whitespace layout exactly the k pulses sent are offered when 1 <= k <= 800 and nothing otherwise, if and only if no carriage return stands between a number and its comma |
| JsonCodec.ReturnBeforeComma | firmware/src/json_helper.cpp:60-70 | A carriage return there makes the decoder stop early: a two-pulse payload is read as one pulse |
| WireFormat.EncodeReadsBack | firmware/src/json_helper.cpp:8-84 | Decoding an encoded message of 1 to 800 pulses restores carrier and all pulses, not truncated |
| WireFormat.SendReadsBack | backend/server.js:132-135 | What the backend sends for a button is offered to the transmitter exactly |
| MqttReceive.ReassembledIff | firmware/src/mqtt_manager.cpp:59-72 | The receive buffer ends up holding the payload exactly when it is shorter than the buffer, however it is cut up |
| MqttReceive.SendCommandOffered | firmware/src/mqtt_manager.cpp:67-91 | A shaped payload that fits, in any layout and any fragmentation, makes the hub offer exactly its pulses, or nothing when there are none or more than 800 (same exception as above) |
| MqttReceive.OtherTopicsOfferNothing | firmware/src/mqtt_manager.cpp:59-91 | A publish on any other topic offers nothing, whatever it carries |
| MqttReceive.Receiver.IncomingPublish | firmware/src/mqtt_manager.cpp:59-65 | A new publish: topic cut to its buffer, payload empty |
| MqttReceive.Receiver.IncomingData | firmware/src/mqtt_manager.cpp:67-91 | One fragment, kept or skipped; the last one is decoded and offered |
| IrTransmit.BurstFollows | firmware/src/ir_transmit.cpp:68-82 | On for even pulses, off for odd ones, off at the end, each due when the pulses before it are over |
| IrTransmit.NoDrift | firmware/src/ir_transmit.cpp:68-81 | Lateness does not add up: with wake-ups at most a bound late, every toggle is within the bound of its deadline, plus what pulses shorter than the bound leave no time for |
| IrTransmit.LongPulseCatchesUp | firmware/src/ir_transmit.cpp:68-81 | One pulse that is long enough catches up with all lateness before it |
| IrTransmit.Transmitter.Send | firmware/src/ir_transmit.cpp:55-82 | The replay loop toggles exactly by the plan; an empty train does nothing; carriers outside 20 to 60 kHz fall back to 38 kHz |
| LearnServer.StepKeepsInv | backend/server.js:209-263 | Every call, message and timer keeps: at most one live timer, the current session's; that session is the one armed last; every other armed session has ended exactly once |
| LearnServer.EveryRun | backend/server.js:209-401 | So it holds over all runs |
| LearnServer.FireKeepsInv | backend/server.js:385-388 | A timer that fires ends its own session and reports its own target |
| LearnServer.ArmedIff | backend/server.js:371-394 | An arming is accepted exactly if both ids are given and the store holds the button; then its session is live and an earlier one has been replaced; otherwise nothing changes |
| LearnServer.SavedIff | backend/server.js:239-256 | A signal that arrives while a session is live is saved exactly if the store holds the armed button, whatever it holds already; then that button has it and no other changed; else the store stays; the session ends either way |
| LearnServer.AssignsOneButton | backend/server.js:244-250 | Learning writes the signal to the first button of that id in the first remote of that id, and to no other |
| LearnServer.OnlyTheArmedButton | backend/server.js:239-256 | Arming, timeouts and cancels never write a signal; whatever a message changes is the armed button, and it ends the session |
| LearnServer.LearnedWhereLastArmed | backend/server.js:239-256 | Over every run, whatever a signal changes is the button armed last, by a session that had not ended |
| LearnServer.LearnThenSend | backend/server.js:334-355 | What arrives for a button the store holds is what is later sent for it, through any run that does not touch this button, whatever else it edits, learns or deletes; a truncated capture is refused |
| LearnServer.SentIff | backend/server.js:334-349 | A button is sent exactly if both ids are given, the store holds it, and it has a signal captured whole; else 400, 404 or 409 says which |
| LearnServer.LearnService.ClearLearnSession | backend/server.js:211-214 | The session and its timer go together |
| LearnServer.LearnService.PostLearn | backend/server.js:371-394 | Arm: 400, 404 or a fresh session in place of the old one |
| LearnServer.LearnService.OnLearned | backend/server.js:223-262 | The learned branch: ignored, raw, saved exactly if the store holds the button, or target missing |
| LearnServer.LearnService.TimerExpires | backend/server.js:385-388 | The timeout callback |
| LearnServer.LearnService.DeleteLearn | backend/server.js:397-401 | Cancel, and whether there was something to cancel |
| EndToEnd.CapturedExactly | firmware/src/ir_capture.cpp:97-120 | Edges with gaps in [60, 55000) us, at most 800 of them, on an idle ring with a free buffer: under any schedule of alarms and task steps the message delivered for them holds exactly the gaps, and left alone the task does deliver it |
| EndToEnd.SentAsLearned | backend/server.js:239-256 | An armed session for a button the store holds leads to exactly the payload of the message that arrives when the button is sent |
| EndToEnd.SentIsOffered | firmware/src/mqtt_manager.cpp:67-91 | The command of a learned button, cut up in any way, is offered with exactly the learned pulses, and its carrier is used if it is between 20 and 60 kHz, else 38 kHz |
| EndToEnd.CapturedIsReplayed | firmware/src/ir_transmit.cpp:68-82 | From wire to wire: captured, published, read as strict JSON, learned, sent and not refused, decoded and transmitted, every toggle is due exactly e_i - e_0 after the start, on for even gaps, off for odd ones and at the end, never more than one wake-up late |
| EndToEnd.AlwaysSendable | firmware/include/config.h:88-90 | Such a message always fits both payload buffers |

## Left out

- BTstack, lwIP, cyw43, FreeRTOS and the SDK: queues are atomic FIFOs, notification bits a set, link and broker results arbitrary; the order in which BTstack calls validate and execute is not modelled, each callback is.
- Clocks: each step reads an arbitrary time, so the timeouts are the code's but a clock need not advance between steps; the length of a wait in wait_events is not modelled.
- Retained status publishes, the MQTT will, subscriptions and callbacks of an earlier connection: MQTT callbacks are taken to belong to the current attempt.
- The queue from capture to network task, which drops its oldest entry when full, and the transmit queue's 50 ms wait: messages that get through are the ones spoken of.
- Payloads of 8192 bytes or more: an oversize fragment is skipped and later ones are still appended; the model does the same, but only `MqttReceive.ReassembledIff` speaks of it.
- Mark and space under noise: the first edge of a two-edge spike can be accepted, so no parity is claimed for captures with glitches.
- The 45 ms with interrupts off during a save: the timing results assume an alarm in every 2 ms window.
- Torn erases and programs: a loss of power falls between whole flash steps.
- PWM wrap and duty, GPIO, carrier hardware, console output, pairing and encryption, reads of characteristics, advertising.
- evaluateRules and runRoutine: edge state is saved after an awaited action, so overlapping ticks are not edge-triggered, and the rest is easy.
- REST upserts beyond "any change of the store", price fetching, WebSocket broadcasts, the user interface other than its address rule.
- CaptureTiming.MessagesFollowEdges: excludes refused transmissions and edges in the 2 ms after a message gap, where the split depends on the alarm's phase too; `CaptureSplits.MessagesAreSegments` holds with them.
- EndToEnd.CapturedIsReplayed: covers trains without glitches, because under noise the accepted edges need not be the sender's.
- LearnServer.LearnService.OnLearned: a payload that is JSON but no signal is not modelled; the hub publishes none (`StrictJson.RenderIsJson`).
- NetworkUnit.Hub.MqttStart: does not model lwIP's address parser and the creation of the client; a host in use has passed the firmware's own scanner, and the request may fail in any case.
- NetworkUnit.Hub.RunOnline: does not model the transfer of captures from the queue to a publish, which shares no state with the rest of the loop; `EndToEnd.CapturedIsReplayed` takes it up.
- NetworkUnit.Hub.RunTask: runs for as long as its script of surroundings lasts, because the firmware's loop never ends; the radio unit and the sector are values of BleProvision and ConfigFlash there, whose in-place forms are `BleUnit.Provisioner` and `ConfigFlash.ConfigStore`.
