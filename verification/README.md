# A verified model of openpilot's shared logic (sunnypilot branch)

This project models, in Dafny, the parts of the repository whose correctness spans several functions,
several processes or a whole drive, and proves what they promise. Each module follows one component of
the program; where the program works in place (buffers, objects with fields, loops), the module holds a
class or a method that does the same and is proved against a specification function, and the theorems
are about that function.

* `CanWire.dfy`, `CanLayout.dfy`, `Panda.dfy`: the CAN byte stream between pandad and a panda. The bit-packed header,
  the data length code of CAN FD (Bosch CAN FD Specification 1.0, section 3.2.1), the XOR checksum, the
  place of every bit on the wire, the packer with its send buffer and the resumable parser with its receive buffer.
* `Common.dfy`: optional values, sums of samples, turning a ring and quotients, shared by several modules.
* `Events.dfy`, `SelfdriveState.dfy`, `Mads.dfy`, `Selfdrived.dfy`: the two engagement state machines,
  the event tables they read, the editing of the event lists between them, and the step that runs both.
  `CarEvents.dfy`, `CarEventRules.dfy` and `EngagementSources.dfy`: who puts events in those lists, for
  what reason, and what follows for MADS. `MadsEdits.dfy` and `MadsRequests.dfy`: what the editing takes
  out of the main list and what it asks of MADS, name by name. `EngagementRuns.dfy`,
  `EngagementRules.dfy` and `EngagementBound.dfy`: whole drives, the exact conditions on which both
  machines change state in them, and a drive that reaches the bound proved for MADS.
* `DriverMonitoring.dfy`, `AwarenessRuns.dfy`, `AwarenessTiming.dfy`: the awareness countdown of driver
  monitoring, whole drives with it, and when exactly it counts and what it publishes.
* `ObdHandshake.dfy`: the handshake between the car process and pandad over the parameter store, as
  interleaved atomic steps, and pandad's `PandaSafety` in place.
* `ParamStore.dfy`, `ParamQueue.dfy`: the parameter store under failing system calls and loss of power,
  and the thread that drains non-blocking writes.
* `FftSize.dfy`: the search for a good FFT size, five nested loops with a shrinking bound.
* `Quaternion.dfy`: rotation matrices and quaternions.
* `RunningStat.dfy`, `BlockAverage.dfy`, `Calibrator.dfy`, `CalibratorRuns.dfy`, `CalibratorRules.dfy`,
  `InputQueues.dfy`: running statistics and the ring buffers, each against the plain history it
  summarises; for the calibration also its status, its restarts and the weight of each sample.
* `Markdown.dfy`, `MarkdownText.dfy`: the markdown renderer: the nesting of its lists, down to the tags of
  the final string, and what every line turns into.

Floating point numbers are real numbers throughout. Inputs that come from sensors, sockets, clocks and
the operating system are free parameters: sensor values, event lists, toggles, the results of system
calls and the order in which processes move.

Where the code and its documentation part ways the model follows the code, and says exactly when the
documented property holds:

* `fft_next_good_size` documents the smallest smooth size for every n; it returns n itself for n <= 0
  (`FftSize.FftNextGoodSize` gives the exact condition).
* The OBD handshake keeps its promise exactly if neither a request nor the end of a firmware query is left
  over when pandad comes back onroad (`ObdHandshake.PromiseKeptExactly`). The tools under
  `selfdrive/debug/car` go through offroad without clearing the request.
* When nothing moves any more the non-blocking parameter queue is drained exactly unless the last check fell
  between the last pop of the running thread and its end (`ParamQueue.DrainedUnlessMissed`).
* A put that fails has changed its key exactly if everything up to the rename succeeded and only the flush
  of the directory failed (`ParamStore.ChangedExactly`); it then returns -1, as it also does when nothing
  has changed (`ParamStore.MinusOneDoesNotTell`).
* The markdown renderer breaks the tag nesting exactly when a deeper list line follows a heading while a
  list is open (`Markdown.BalancedExactly`, `Markdown.HeadingBreaksNesting`).
* `sunnypilot/mads/mads.py:181` asks for an event type and passes an event name. The answer is a free
  boolean of the model (`nameMatches`); `MadsRequests.SwitchOnExactly` says what it decides.

## Model

| member | source | states |
|---|---|---|
| CanWire.LenToDlcIsTightest | selfdrive/pandad/panda.cc:179-188 | The data length code chosen for a length is the smallest code whose payload size can hold it, and is exact precisely for the valid CAN FD lengths |
| CanWire.HeaderRoundTrip | selfdrive/pandad/panda.h:28-37 | Every header survives being packed into six bytes of bit fields |
| CanWire.HeaderBytesRoundTrip | selfdrive/pandad/panda.h:28-37 | Every six bytes survive being read as a header: no bit of the layout is lost or doubled |
| CanLayout.HeaderBytesLayout | selfdrive/pandad/panda.h:28-37 | The six bytes bit by bit: bit 0 reserved, 1-3 bus, 4-7 length code, 8 rejected, 9 returned, 10 extended, 11-39 the address from its least significant bit up, byte 5 the checksum |
| CanLayout.ReadHeaderExactly | selfdrive/pandad/panda.cc:267-277 | A header is read from bytes if and only if they have that layout |
| CanWire.SealedChecksumIsZero | selfdrive/pandad/panda.cc:217-218 | Once the checksum byte is written over a zero one, the XOR of the whole packet is zero |
| CanWire.ChecksumUpdate | selfdrive/pandad/panda.cc:306-312 | Overwriting one byte changes the checksum by exactly that byte, the contribution of the others being fixed |
| CanWire.ParseConcat | selfdrive/pandad/panda.cc:264-304 | Parsing may stop anywhere: what comes later continues from the unfinished rest as if the bytes had come together |
| CanWire.RestIsIncomplete | selfdrive/pandad/panda.cc:267-275 | What the parser leaves over never holds a whole packet |
| CanWire.StreamRoundTrip | selfdrive/pandad/panda.cc:190-312 | Parsing the bytes packed for this panda gives exactly its messages, addresses cut to 29 bits, in order, with nothing left over |
| CanLayout.MessageBytesLayout | selfdrive/pandad/panda.cc:206-218 | The packet of any message of this panda, bit by bit: bus within the block, length code, the extended flag from 0x800 on, 29 address bits, payload, neither rejected nor returned, total XOR zero |
| CanLayout.StreamLayout | selfdrive/pandad/panda.cc:190-230 | The packed stream is one such packet for each message of the four buses, in order |
| CanLayout.ParseLayout | selfdrive/pandad/panda.cc:264-304 | Every parsed frame is what a packet of the bytes says bit by bit, its source the bus, plus 0xC0 if rejected and 0x80 if echoed; what is left is too short for a packet, or starts with one whose XOR is not zero |
| CanWire.OneByteErrorIsCaught | selfdrive/pandad/panda.cc:277-282 | Any damage to one byte of a packet that leaves the length code alone is rejected |
| CanWire.FeedIgnoresCuts | selfdrive/pandad/panda.cc:238-258 | However a stream without a bad packet is cut into pieces, feeding the pieces gives what the whole stream gives |
| CanWire.TransportIsExact | selfdrive/pandad/panda.cc:190-312 | End to end: for all sendable messages and every fragmentation of the packed bytes, the frames received are the messages of this panda's four buses, in order, with the low 29 bits of the address, the same data and the same source |
| PandaComms.Panda.CalculateChecksum | selfdrive/pandad/panda.cc:306-312 | The loop computes the XOR of exactly the given bytes |
| PandaComms.Panda.PackMessage | selfdrive/pandad/panda.cc:206-220 | One pass of the packing loop appends exactly the packet of the message, laid out bit by bit as the struct demands, and keeps what was packed before |
| PandaComms.Panda.PackCanBuffer | selfdrive/pandad/panda.cc:190-230 | The writes, joined, are the packed stream; each is non-empty and stays within the send buffer |
| PandaComms.Panda.UnpackCanBuffer | selfdrive/pandad/panda.cc:264-304 | With the wrapping size guard and the leftovers moved to the front, the buffer becomes the rest of the parse and the frames are appended; a bad packet empties it |
| PandaComms.Panda.CanReceive | selfdrive/pandad/panda.cc:238-258 | In every reachable state there is room for RECV_SIZE bytes, and one receive appends the frames of the parse of what was held and what came |
| PandaComms.Panda.ReceiveAll | selfdrive/pandad/panda.cc:238-258 | A run of receives of one panda delivers what feeding the pieces that came over a healthy link one by one means, and reports whether all went well |
| FftSize.FftNextGoodSize | selfdrive/locationd/helpers.py:9-33 | The loops terminate, and the result is the smallest 11-smooth number that is at least n if and only if n >= 1 |
| FftSize.LoopExit | selfdrive/locationd/helpers.py:18-32 | A loop may stop when its variable reaches the current best: no later round could improve it |
| FftSize.LoopRound | selfdrive/locationd/helpers.py:18-32 | What has been explored stays explored although the bound of all five loops shrinks |
| FftSize.SmoothIsReached | selfdrive/locationd/helpers.py:18-32 | Run without bound the nest would visit every product of powers of 2, 3, 5, 7 and 11 |
| FftSize.PowerOfTwoBetween | selfdrive/locationd/helpers.py:17 | There is a power of two from n to 2n - 1, so the initial bound 2n never is the result |
| DriverMonitoringModel.DriverMonitoring.SetTimersOf | selfdrive/monitoring/helpers.py:196-224 | Switching the mode in place: lock-in at orange and red, and the swap with the saved counter |
| DriverMonitoringModel.DriverMonitoring.UpdateEventsOf | selfdrive/monitoring/helpers.py:341-408 | The whole awareness update in place: lockout, resets, recovery, exemptions, countdown and alert |
| DriverMonitoringModel.DriverMonitoring.RunStep | selfdrive/monitoring/helpers.py:441-480 | One step of the object is the step of the specification under the always-on toggle in force, fields and published events |
| AwarenessTiming.ModeExactly | selfdrive/monitoring/helpers.py:196-224 | Which mode a step counts in and by how much: active for a face seen with certainty or from orange on, else passive |
| AwarenessTiming.AwarenessExactly | selfdrive/monitoring/helpers.py:341-391 | On every step of every run: when awareness starts over, when it recovers and when it falls, by one step of its mode, in terms of the inputs with all exemptions; otherwise it stays |
| AwarenessTiming.AlertsExactly | selfdrive/monitoring/helpers.py:393-408 | What every step of every run publishes: the alert of the level reached, and the lockout |
| AwarenessTiming.DistractedCountdown | selfdrive/monitoring/helpers.py:377-391 | A driver seen to be distracted while engaged and moving loses a 220th on every step, down to -0.1, from any value in active mode |
| AwarenessTiming.DistractedSchedule | selfdrive/monitoring/helpers.py:377-408 | From full awareness such a driver gets nothing for 59 steps, the mild alert from the 60th, orange from the 100th and red from the 220th on |
| AwarenessTiming.FacelessCountdown | selfdrive/monitoring/helpers.py:377-391 | With no face in sight, hand on the wheel or foot on the gas the passive value loses a 600th on every step |
| AwarenessTiming.FacelessSchedule | selfdrive/monitoring/helpers.py:377-408 | From full awareness the passive alerts come with the 300th, the 480th and the 600th step |
| AwarenessTiming.HidingHolds | selfdrive/monitoring/helpers.py:196-204 | Hiding the face once the distraction alert is orange changes neither awareness nor alert, however long it lasts |
| AwarenessTiming.WatchingRecovers | selfdrive/monitoring/helpers.py:365-376 | A driver who watches the road is back at full awareness after at most 176 steps from any level above red |
| AwarenessRuns.RunFrames | selfdrive/monitoring/dmonitoringd.py:20-38 | Over a whole drive, the toggle reloaded between steps, the object goes through the states of the run |
| AwarenessRuns.ReachableIsGood | selfdrive/monitoring/helpers.py:188-224 | In every reachable state, however the toggle moves, awareness is in [-0.1, 1], the saved active value is above 6/11 and the saved passive value above 0 |
| AwarenessRuns.OrangeBudget | selfdrive/monitoring/helpers.py:365-405 | Along any run the consecutive orange steps and the awareness left add up: each orange step costs at most a 220th |
| AwarenessRuns.RedIsPrecededByOrange | selfdrive/monitoring/helpers.py:378-408 | Each of the 120 steps before a red distraction alert starts published the orange one, whatever the inputs and the toggle |
| AwarenessRuns.PassiveRedIsPrecededByOrange | selfdrive/monitoring/helpers.py:217-224 | In passive mode a red alert starts only after at least 120 orange steps since the value was last above orange |
| AwarenessRuns.RedHoldsWhileEngaged | selfdrive/monitoring/helpers.py:393-399 | Once red is published it is published on every step until a step without engagement |
| AwarenessRuns.RedOnlyWhileEngaged | selfdrive/monitoring/helpers.py:355-360 | A step without engagement never publishes red, always-on monitoring included |
| AwarenessRuns.SwitchKeepsBothValues | selfdrive/monitoring/helpers.py:206-224 | Switching the mode preserves the pair of active and passive awareness |
| AwarenessRuns.NothingIsGivenBack | selfdrive/monitoring/helpers.py:196-224 | Over any stretch without reset or recovery both values never rise, however often the mode is switched |
| AwarenessRuns.CountersCountRed | selfdrive/monitoring/helpers.py:394-399 | The two terminal counters are the number of red alerts started and of red steps |
| AwarenessRuns.LockoutExactly | selfdrive/monitoring/helpers.py:344-348 | The driver is locked out exactly if that was stored before the drive or the counters reached 3 alerts or 600 steps at an earlier step |
| EventTables.SoftDisableForbidsEntry | selfdrive/selfdrived/events.py:219-851 | Every entry of the table with SOFT_DISABLE also has NO_ENTRY |
| EventTables.OnlyEngagementEnables | selfdrive/selfdrived/events.py:496-502 | Exactly pcmEnable and buttonEnable carry ENABLE |
| EventTables.SunnypilotTypes | sunnypilot/selfdrive/selfdrived/events.py:73-229 | No sunnypilot event soft-disables, and exactly two of them enable |
| CarSpecific.CarSpecificEvents.UpdateWith | selfdrive/car/car_specific.py:24-187 | The events of one step of the car, and the object's memory of steering faults and low speed |
| CarSpecific.EngagementOnce | selfdrive/car/car_specific.py:24-187 | A car raises pcmEnable and buttonEnable at most once in a step, each exactly when its rule says so |
| CarEventRules.RaisedExactly | selfdrive/car/car_specific.py:24-187 | For every brand and every event name: exactly when a step of the car raises it |
| CarEventRules.EveryDriveRemembers | selfdrive/car/car_specific.py:159-176 | Over every drive the memory means what its fields say: the steps since a hand was on the wheel, a fault being steered through, and whether a fault is to be told silently |
| CarEventRules.FullWarningExactly | selfdrive/car/car_specific.py:159-176 | Over every drive a temporary steering fault gives the full warning exactly while moving, after 150 steps without a hand on the wheel and with no silent warning since an earlier step without fault; else a silent one, or none while the driver steers through it |
| SelfdriveState.StateMachine.UpdateWith | selfdrive/selfdrived/state.py:17-97 | The main machine's update in place: state, timer and alert types |
| Mads.MadsStateMachine.UpdateWith | sunnypilot/mads/state.py:45-135 | The MADS update in place: its state, and the other machine's timer and alert types |
| Selfdrived.ModularAssistiveDrivingSystem.UpdateEvents | sunnypilot/mads/mads.py:107-191 | The edits of both event lists, in the source's order |
| Selfdrived.SelfdriveD.StepWith | selfdrive/selfdrived/selfdrived.py:579-590 | One step of all objects: the main machine on the raw lists, then MADS on the edited ones |
| MadsEdits.EditedCount | sunnypilot/mads/mads.py:107-191 | How many occurrences of each name of the main list are left: those there were less the removals the circumstances call for |
| MadsEdits.EditedIsPart | sunnypilot/mads/mads.py:107-191 | The edited main list is part of the raw one |
| MadsEdits.EnableSurvives | sunnypilot/mads/mads.py:145-151 | ENABLE stays in the main list exactly when an engagement name occurs more often than it is removed |
| MadsEdits.OthersSurvive | sunnypilot/mads/mads.py:107-191 | A name outside the listed ones always reaches MADS |
| MadsRequests.RequestedExactly | sunnypilot/mads/mads.py:107-191 | For every name of the sunnypilot list: it is there after the editing if and only if it was there before or the driver, the cruise switch, the brake under its steering mode or a hazard gives its reason; lkasEnable, which braking may take back, is counted by the next row |
| MadsRequests.SwitchOnExactly | sunnypilot/mads/mads.py:153-183 | How often lkasEnable is there: the raw occurrences, one for each press that counts and for the cruise switch, less one that braking may take back |
| MadsRequests.RequestedWithReason | sunnypilot/mads/mads.py:107-191 | No name is there without a reason, lkasEnable included |
| EngagementRuns.EveryRunIsGood | selfdrive/selfdrived/selfdrived.py:579-590 | The joint invariant of both machines, the shared timer and the copied flags, over every run |
| EngagementRuns.MadsDoesNotDisturbMain | sunnypilot/mads/state.py:66-87 | In every run the main machine has the state, and while soft-disabling the deadline, it would have without MADS |
| EngagementRuns.MainDependsOnRawListsOnly | selfdrive/selfdrived/selfdrived.py:579-585 | Two runs with the same raw main lists have the same main machine, whatever else differs |
| EngagementRules.DriveGoesExactly | selfdrive/selfdrived/selfdrived.py:579-590 | Every ready step of every drive: the exact conditions on which each machine is in each state after it |
| EngagementRules.DriveShowsExactly | selfdrive/selfdrived/state.py:17-97 | The exact alert types after a ready step, those of the main machine and those that MADS adds |
| EngagementRules.UserDisableStopsMain | selfdrive/selfdrived/state.py:24-33 | In every run a raw list with USER_DISABLE takes the main machine from any state but disabled to disabled, neither enabled nor active, with USER_DISABLE shown |
| EngagementRules.UserDisableNames | selfdrive/selfdrived/events.py:219-851 | Exactly eight names carry USER_DISABLE, the brake pedal among them |
| EngagementRules.MainActivationExactly | selfdrive/selfdrived/state.py:75-88 | From disabled the main machine leaves exactly on ENABLE without NO_ENTRY, into pre-enabled, overriding or enabled as PRE_ENABLE and the overrides say |
| EngagementRules.OverridingExactly | selfdrive/selfdrived/state.py:35-73 | While nothing disables it is overriding exactly on the steps that override |
| EngagementRuns.SoftDisablingCountsDown | selfdrive/selfdrived/state.py:17-61 | While soft-disabling the timer is in 1..300, starts at 300 and falls by one per step |
| EngagementRuns.MainIsDisabledInTime | selfdrive/selfdrived/state.py:35-71 | With SOFT_DISABLE on every step the main machine, unless pre-enabled, is disabled after at most 301 steps and stays so |
| EngagementRuns.MainIsDisabledFromAnyState | selfdrive/selfdrived/state.py:35-71 | From any state, pre-enabled too, the 301 steps are counted from the first one after a step without PRE_ENABLE |
| EngagementRuns.PreEnabledIsHeld | selfdrive/selfdrived/state.py:63-68 | Until such a step pre-enabled is held, whatever else is in the list short of a disable |
| EngagementRuns.FullCountdown | selfdrive/selfdrived/state.py:35-61 | The bound is exact: with nothing stronger present every value of the countdown is seen |
| EngagementRuns.MadsStepUnderSoft | sunnypilot/mads/state.py:45-127 | With SOFT_DISABLE in the edited list MADS is soft-disabling, disabled or paused, and never comes back from the latter two |
| EngagementRuns.MadsBudgetFalls | sunnypilot/mads/state.py:66-87 | The steps MADS can still stay soft-disabling fall with every step, across the one restart of the shared timer |
| EngagementRuns.MadsIsOffInTime | sunnypilot/mads/state.py:45-135 | Once the edited list has held SOFT_DISABLE for 599 steps MADS is disabled or paused, and stays so while that lasts |
| EngagementBound.BoundIsExact | sunnypilot/mads/state.py:66-87 | The bound is exact: a run started by the lkas button, of 598 such steps after which MADS is still soft-disabling |
| EngagementBound.LongIsProduced | selfdrive/car/car_specific.py:95-187 | One drive produces that run: every raw list is one that the producers give, with the car's memory and its earlier state carried from step to step |
| EngagementRuns.ActivationExactly | sunnypilot/mads/state.py:89-127 | MADS becomes active exactly on a step that runs it with ENABLE and no NO_ENTRY and, from paused, nothing that disables |
| EngagementRules.UserDisableGoesTo | sunnypilot/mads/state.py:51-58 | From any state but disabled a list with USER_DISABLE leads to paused if and only if it holds silentLkasDisable, and to disabled otherwise |
| EngagementRules.EntersPausedExactly | sunnypilot/mads/state.py:45-127 | MADS enters paused exactly when it is on and silently disabled, or off and asked to engage while a hazard it can wait for forbids entry |
| EngagementRules.OffUntilAsked | sunnypilot/mads/state.py:109-127 | What was switched off stays disabled until a step whose edited lists carry ENABLE |
| EngagementRules.LkasButtonStopsMads | sunnypilot/mads/mads.py:161-166 | In every run a press of the lkas button that counts while MADS is on leaves it not active |
| EngagementRules.UserDisableReachesMads | sunnypilot/mads/mads.py:107-191 | Of the ways to take over, exactly which still reach MADS after the editing |
| EngagementRules.BrakeByMode | sunnypilot/mads/mads.py:129-183 | Braking stops the main machine; steering goes on, pauses or ends as the driver's setting says |
| EngagementRules.MadsFullCountdown | sunnypilot/mads/state.py:66-87 | With the main machine off, SOFT_DISABLE and nothing stronger is counted down for 300 steps before steering ends |
| EngagementRuns.WhereActivationComesFrom | sunnypilot/mads/mads.py:139-168 | Every activation comes from an engagement name that outlasted the editing or from the sunnypilot list |
| EngagementRuns.BlockedActivationIsLateral | sunnypilot/mads/mads.py:79-90 | With unified engagement off, or from paused, engagement names that occur once never activate MADS |
| EngagementRuns.DoubledEnableActivates | sunnypilot/mads/mads.py:149-151 | On lists in general the condition that names occur once is needed; the program's own lists meet it |
| EngagementSources.EngagementNamesAreSingle | selfdrive/selfdrived/selfdrived.py:176-238 | No raw list of the program holds an engagement name twice |
| EngagementSources.BlockedActivationIsFromLateralList | sunnypilot/mads/mads.py:79-90 | So with unified engagement off, or from paused, every activation comes from the sunnypilot list |
| EngagementSources.WhoAddsLateral | sunnypilot/mads/mads.py:153-187 | The two lateral engagement names are added only for the lkas button, the cruise switch, or to leave paused |
| EngagementSources.WhatActivatesMads | sunnypilot/mads/mads.py:139-187 | MADS becomes active only out of paused, for the lkas button, for the cruise switch, or, with unified engagement on, together with an engagement of the main machine |
| EngagementRuns.HazardStopsBoth | sunnypilot/mads/state.py:45-64 | An immediate-disable event that MADS does not edit leaves neither machine active |
| EngagementRuns.WarningsShown | sunnypilot/mads/state.py:129-133 | Warnings are shown exactly while the main machine is active, or MADS is and the main one is not enabled |
| ObdHandshake.EverySessionKeepsInv | selfdrive/pandad/panda_safety.cc:5-60 | The invariant of both processes over every interleaving of their atomic steps |
| ObdHandshake.CallReturnsSwitched | selfdrive/car/card.py:35-43 | A call that changed the parameter returns only once every panda is in ELM327 with the parameter it requires, an old answer in the store notwithstanding |
| ObdHandshake.PromiseKeptExactly | selfdrive/pandad/panda_safety.cc:5-60 | For a pandad fresh from an offroad step that holds over every onroad session if and only if no request and no finished firmware query is left over |
| ObdHandshake.PandasHoldTheRequest | selfdrive/pandad/panda_safety.cc:23-43 | Between calls the pandas stay in the mode of the parameter |
| ObdHandshake.CallWithoutChange | selfdrive/car/card.py:36-37 | A call for the stored value returns at once, with the pandas in its mode unless pandad has not begun |
| ObdHandshake.WaitIsBounded | selfdrive/car/card.py:41 | The blocking read ends within 2n + 7 steps of pandad |
| ObdHandshake.ConfiguredIsFinal | selfdrive/pandad/panda_safety.cc:5-21 | After the car's modes are set no panda is changed before an offroad step |
| ObdHandshake.SafetyModesHold | selfdrive/pandad/panda_safety.cc:63-90 | From the reading of the car's parameters to the next offroad step pandad is setting the modes they hold, or every panda has its own |
| ObdHandshake.NotBeforeReady | selfdrive/pandad/panda_safety.cc:45-60 | As long as the car is not ready pandad does not begin to set the car's modes |
| ObdHandshake.NotBeforeFirmware | selfdrive/pandad/panda_safety.cc:45-60 | Nor before the firmware query is done |
| ObdHandshake.OffroadStepBreaksThePromise | selfdrive/pandad/panda_safety.cc:16-20 | A session with an offroad step that keeps the request, in which a call returns too early |
| ObdHandshake.StepsMakeTheCall | selfdrive/pandad/panda_safety.cc:5-60 | The atomic steps of pandad add up to the call in one piece |
| ObdHandshake.PandaSafety.ConfigureSafetyMode | selfdrive/pandad/panda_safety.cc:5-21 | The call in place: the fields, the mode and the alternative experience of every panda, and whether the answer was written |
| ObdHandshake.PandaSafety.UpdateMultiplexingMode | selfdrive/pandad/panda_safety.cc:23-43 | The two loops over the pandas |
| ObdHandshake.PandaSafety.SetSafetyMode | selfdrive/pandad/panda_safety.cc:63-90 | Panda i gets the i-th configuration, or SILENT where there is none, and every panda the alternative experience |
| Quaternion.RadicandIsAtLeastOne | common/transformations/transformations.py:109-134 | For every matrix whatsoever the branch taken has a radicand of at least one, so nothing is divided by zero |
| Quaternion.UnsignedIsScaledRow | common/transformations/transformations.py:109-134 | All four branches divide the row of their pivot in the product matrix by twice the root |
| Quaternion.QuaternionRoundTrip | common/transformations/transformations.py:88-138 | For every unit quaternion the two conversions give it back up to sign, with w non-negative |
| Quaternion.UnitGivesRotation | common/transformations/transformations.py:88-102 | The matrix of a unit quaternion is orthogonal with determinant one |
| Quaternion.ColumnsAreTurnedAxes | common/transformations/transformations.py:88-102 | The columns of that matrix are the axes turned by the quaternion: q i q*, q j q* and q k q* in Hamilton's product |
| Quaternion.MatrixRoundTrip | common/transformations/transformations.py:88-138 | For every rotation matrix the conversions give it back exactly, through a unit quaternion with w non-negative |
| RunningStats.RunningStat.PushData | common/stat_live.py:25-37 | One push in place, all five fields |
| RunningStats.MeanAndSpread | common/stat_live.py:25-37 | After any pushes, with no cap or up to the cap, M is the mean and S the sum of squared deviations from it |
| RunningStats.CappedPushForgets | common/stat_live.py:25-37 | Once the cap is reached each push moves M by one part in the cap plus one towards the value and keeps n at the cap |
| RunningStats.CappedMeanStaysInRange | common/stat_live.py:25-37 | With any cap but zero M stays in the range of the data and S is never negative |
| RunningStats.ZeroCapKeepsTheLast | common/stat_live.py:29-32 | With a cap of zero M is the last value and S zero |
| BlockAverages.BlockAverage.UpdateWith | selfdrive/locationd/lagd.py:128-133 | One sample in place: the slot's running mean and the turn to the next slot |
| BlockAverages.BlockAverage.Get | selfdrive/locationd/lagd.py:135-151 | Means and squared standard deviations, over the valid slots and with the current one |
| BlockAverages.RingAgreesWithLog | selfdrive/locationd/lagd.py:128-133 | After any samples the ring holds the means of the last completed blocks and the current slot that of what is in progress |
| BlockAverages.BlocksAreTheSamples | selfdrive/locationd/lagd.py:128-133 | The blocks, joined, are all the samples: none lost, doubled or reordered |
| BlockAverages.StatsAreOfLog | selfdrive/locationd/lagd.py:135-151 | All four are those of the means of the last completed blocks, for the second pair together with the mean of the block in progress |
| BlockAverages.ValidMeanIsPlainMean | selfdrive/locationd/lagd.py:135-143 | The valid mean is the plain mean of all samples in the last min(k, num_blocks - 1) completed blocks |
| BlockAverages.CurrentSlotIsItsMean | selfdrive/locationd/lagd.py:129 | The current slot is the mean of its own samples, without a trace of the stale value |
| Calibration.Calibrator.HandleCamOdom | selfdrive/locationd/calibrationd.py:181-231 | One message in place: the filter, the slot with angles, wide-camera angles and height, the turn to the next block and the status |
| Calibration.Calibrator.UpdateStatus | selfdrive/locationd/calibrationd.py:137-166 | The status, the mean and the restart in place |
| CalibratorRules.StatusExactly | selfdrive/locationd/calibrationd.py:145-156 | At every point of every run: calibrated or invalid from five blocks on, by whether the mean lies strictly within the limits; before, recalibrating if there ever was a restart, else uncalibrated |
| CalibratorRules.RestartsExactly | selfdrive/locationd/calibrationd.py:158-166 | A taken message starts over exactly if five blocks are valid, their mean is within the limits and two of them disagree in pitch or yaw by more than the allowed spread |
| CalibratorRules.RestartFinishesBlock | selfdrive/locationd/calibrationd.py:222-229 | It does so only with a message that completes a block |
| CalibratorRules.LeftOutExactly | selfdrive/locationd/calibrationd.py:189-203 | In every run a message is left out exactly when not straight and fast, or uncertain with five blocks there, and then changes only the fading weight |
| CalibratorRules.EveryBlockIsOfItsSamples | selfdrive/locationd/calibrationd.py:218-229 | In every run each block is made of exactly its hundred samples, in order |
| CalibratorRules.BlockIsWeightedMean | selfdrive/locationd/calibrationd.py:60-61 | Every angle and the height of a block are weighted means of those of its samples |
| CalibratorRules.WeightsAddUp | selfdrive/locationd/calibrationd.py:60-61 | The weights are not negative and add up to one |
| CalibratorRules.ClipExactly | selfdrive/locationd/calibrationd.py:53-58 | What is taken of an observation, inside and outside the range and with parts missing |
| CalibratorRules.OutputPassesInTen | selfdrive/locationd/calibrationd.py:173-179 | After a restart the output passes from the old calibration to the new one in ten messages, a tenth at a time |
| CalibratorRuns.ValidIdxsExactly | selfdrive/locationd/calibrationd.py:131-135 | The valid indices are exactly those below valid_blocks other than block_idx, each once and in order |
| CalibratorRuns.EveryRunHolds | selfdrive/locationd/calibrationd.py:218-229 | In every run block_idx < 50 and valid_blocks <= 50, and the ring holds the blocks finished since the last reset |
| CalibratorRuns.EveryRestartIsFromLastBlock | selfdrive/locationd/calibrationd.py:163-166 | Whenever the spread triggers a restart, `rpys[block_idx - 1]`, index -1 included, is the block finished last, its angles fill the ring with height and wide-camera angles reset, and at least five blocks have been finished since the previous restart |
| CalibratorRuns.CalibrationIsMeanOfBlocks | selfdrive/locationd/calibrationd.py:137-143 | The calibration, height and wide-camera angles included, is the plain mean of the finished blocks it covers, at most the last 49 |
| CalibratorRuns.EveryFinishedBlockInClip | selfdrive/locationd/calibrationd.py:53-61 | Every finished block lies within the clipping range |
| CalibratorRuns.SlotForgets | selfdrive/locationd/calibrationd.py:218-221 | The first sample of a block replaces what its slot held |
| CalibratorRuns.RestartIsSmooth | selfdrive/locationd/calibrationd.py:165-179 | In every run, the message that restarts gives the smoothed output it would have given without the restart, and the earlier transition is over by then |
| ModelInputs.InputQueues.UpdateShapes | selfdrive/modeld/modeld.py:95-107 | The length of every queue from the length of its input and the ratio of the rates |
| ModelInputs.InputQueues.Enqueue | selfdrive/modeld/modeld.py:112-121 | Every queue named shifts by its input and the others are unchanged |
| ModelInputs.InputQueues.Get | selfdrive/modeld/modeld.py:123-139 | The view of one queue, in all branches |
| ModelInputs.EnqueueExtendsHistory | selfdrive/modeld/modeld.py:118-121 | The queue is the last columns of the whole history, zeros before it |
| ModelInputs.PlainViewIsEveryRth | selfdrive/modeld/modeld.py:136-138 | The plain view is exactly the entries of 0, r, 2r, ... steps ago in time order |
| ModelInputs.PulseViewIsWindowMaxima | selfdrive/modeld/modeld.py:133-135 | Slot g of the pulse view is the maximum of its window of r steps |
| ModelInputs.OneWindowPerStep | selfdrive/modeld/modeld.py:133-135 | Every step still in the queue falls in exactly one window, so a pulse appears in exactly one slot |
| ModelInputs.ImageViewIsSlices | selfdrive/modeld/modeld.py:130-132 | For any number of stacked frames, every column of the image view is what came in as many steps ago as its slice lies before the end |
| ModelInputs.SlicesAreFrames | selfdrive/modeld/modeld.py:130-132 | The slices are whole frames, m + 1 steps apart, when r - 1 is m times the number of frames less one |
| ModelInputs.ImageViewIsTwoFrames | selfdrive/modeld/modeld.py:130-132 | With two stacked frames the image view is the frame of r steps ago and the newest |
| ModelInputs.ViewHasModelLength | selfdrive/modeld/modeld.py:95-139 | The view of a queue of the length set up for an input has the length the model wants, for every kind |
| ParamStore.EveryRunKeepsInv | common/params.cc:132-178 | The invariant of the disk and all calls, any number of them interleaved and failing anywhere |
| ParamStore.AlwaysWhole | common/params.cc:132-169 | Cut off at any point, with any of the unflushed changes lost, a key reads as the whole value of the last put that remains, or as absent |
| ParamStore.OldOrNew | common/params.cc:132-169 | One system call moves what a key can read as from old to new with nothing in between |
| ParamStore.SuccessIsDurable | common/params.cc:160-168 | After a call has returned 0 its change, or a later one on the key, survives every loss of power |
| ParamStore.FailedWriteChangesNothing | common/params.cc:143-168 | A put returns 0, -1 or -20 and leaves no temporary file; with -20 it has changed no key |
| ParamStore.ChangedExactly | common/params.cc:132-178 | In every interleaving, the change of a returned call is in the directory if and only if its system calls up to the rename, or the unlink, succeeded; so a failed put has changed its key if and only if only the flush of the directory failed |
| ParamStore.PutAloneExactly | common/params.cc:132-169 | The same for one put on its own, with the directory it leaves, what of it is on disk and the result, for every disk and all results of its system calls |
| ParamStore.MinusOneDoesNotTell | common/params.cc:140-168 | Both cases of -1 arise: a put that changed nothing, and one whose new value can be read |
| ParamStore.Params.PutValue | common/params.cc:132-169 | `put` in one piece is what its system calls add up to, the removal of the temporary file and the result included |
| ParamStore.Params.RemoveKey | common/params.cc:171-178 | The same for `remove` |
| ParamQueue.SafeQueue.Push | common/queue.h:12-18 | First in, first out: with the new value last, everything pushed has been popped in order or waits in order |
| ParamQueue.SafeQueue.TryPop | common/queue.h:28-36 | Pops what was pushed longest ago, or reports that everything pushed has been popped |
| ParamQueue.NonBlockingParams.PushEntry | common/params.cc:229-230 | The first half of a non-blocking put, on the shared queue |
| ParamQueue.NonBlockingParams.StartOnDemand | common/params.cc:231-234 | The second half: a thread is started when there is none or the last one is done |
| ParamQueue.NonBlockingParams.WriterStep | common/params.cc:237-243 | One step of the draining loop, on the shared queue |
| ParamQueue.NothingLostOrReordered | common/params.cc:229-244 | In every interleaving there is at most one writer, and pushed = attempted ++ in hand ++ queued |
| ParamQueue.DrainedHoldsLastPushed | common/params.cc:229-244 | Once drained, if all puts succeed each key holds its last pushed value |
| ParamQueue.DrainedUnlessMissed | common/params.cc:229-244 | When nothing moves any more the queue is empty if and only if the last check did not fall between the last pop of the running thread and its end |
| ParamQueue.WorkGetsOn | common/params.cc:237-243 | Until then every step of a working thread brings the end closer |
| ParamQueue.DestructorAssertion | common/params.cc:99-104 | When the destructor has waited for the future, its assertion that the queue is empty holds if and only if the last check was not missed |
| ParamQueue.FutureGetsReady | common/params.cc:99-102 | The wait of the destructor ends |
| ParamQueue.LatePushIsLeftBehind | common/params.cc:232-243 | A run in which a push stays queued with no writer |
| Markdown.EndOutstandingLists | common/markdown.py:11-17 | The closing loop |
| Markdown.ParseMarkdown | common/markdown.py:6-45 | The loop over the lines, with the last piece rewritten in place, and the final escaping |
| Markdown.ReopenedIsReplaced | common/markdown.py:30-31 | On strings, rewriting the last piece, an item or a heading, is removing every closing item tag from it |
| MarkdownText.SplitExactly | common/markdown.py:7 | The lines are the only way to cut the text at its line breaks |
| MarkdownText.BulletExactly | common/markdown.py:24-32 | Exactly the lines of white space, a star and a blank are list items; the text is the rest without leading white space |
| MarkdownText.DepthOfLine | common/markdown.py:20-38 | The depth after a line: blanks before the star over the tab length plus one, but at most one more than before; headings and underlines keep it, only items leave lists open |
| MarkdownText.EveryLineIsShown | common/markdown.py:19-38 | Every line comes out once and in order as the heading, item or text it is, but for closing item tags inside an item or heading that got a list |
| MarkdownText.EscapedIsBothReplacements | common/markdown.py:1-4 | The escaping in one pass is the two replacements one after the other |
| MarkdownText.EscapedReadsBack | common/markdown.py:1-4 | The escaped text reads back as the text and holds no quotation mark |
| Markdown.BalancedExactly | common/markdown.py:11-39 | The tags are properly nested and all closed exactly when no deeper list line follows a heading while a list is open |
| MarkdownText.PageIsBalancedExactly | common/markdown.py:6-45 | The same read off the final string character by character, for every text without tags of its own |
| Markdown.BalancedWithoutInnerHeadings | common/markdown.py:19-39 | With no heading while a list is open they always are, and after every line `list_level` lists are open |
| Markdown.HeadingBreaksNesting | common/markdown.py:20-31 | A document that breaks the nesting |

## Left out

- USB and SPI transfers, sockets, Cap'n Proto messages, sleeps and logging: frames, events, parameter values and system call results are inputs.
- The panda firmware; `panda/board/can.h` is not part of this model. The length table and the header size it declares are fixed to those of CAN FD and the struct.
- PandaComms.Panda.ReceiveAll: follows one panda; the process reads several, each into its own buffer.
- PandaComms.Panda.PackCanBuffer: the two assertions of the loop (payload at most 64 bytes and of a CAN FD length) are preconditions, and `PANDAD_MAXOUT` is not modelled.
- FftSize.FftNextGoodSize: the cache in front of the function.
- DriverMonitoringModel.DriverMonitoring.RunStep: demo mode; classification of face, pose, blink and phone is an input, as are the filter value and the policy; the uncertainty counter of the driver camera and its offroad alert are not modelled.
- Selfdrived.SelfdriveD.StepWith: of `update_events` of selfdrived only the producers of the engagement names are modelled, and which names the rest can add; the raw lists are an input, with the service checks reduced to one flag; simulation and replay, passive cars and cars that are not cars are assumed away. That raw list can itself depend on MADS in one place (`selfdrive/selfdrived/selfdrived.py:444`), so `EngagementRuns.MainDependsOnRawListsOnly` is about equal raw lists.
- Alert texts, sounds, priorities and creation delays of the event tables: only the set of types of each event.
- ObdHandshake.CallReturnsSwitched: `send_panda_states` forcing NO_OUTPUT during the handshake, and the decoding of CarParams, of which the list of safety modes and the alternative experience are kept. `obd_callback` is a sequence of atomic steps rather than a method, because it blocks on the other process.
- Trigonometry, Euler angles, geodetic conversion, FFT correlation, Kalman filters and neural networks. Square roots are passed in with their defining equation.
- RunningStats.RunningStat.PushData: construction from saved priors, and `RunningStatFilter`.
- BlockAverages.BlockAverage.Get: the square root that turns the squared standard deviation into the standard deviation.
- Calibration.Calibrator.UpdateStatus: the stored message, and not-a-number or wrong lengths in saved values; a new observation is an arbitrary rotation or not a number.
- ModelInputs.InputQueues.Get: one feature per step; the rounding of slice positions is that of exact division; dtypes and the error for a wrong one.
- ParamStore.AlwaysWhole: names of temporary files and the directory that holds them, an unlink of a temporary file that fails, and the lock file, on which nothing proved rests; `clearAll`, `readAll` and blocking `get`.
- ParamQueue.NothingLostOrReordered: more than one pushing thread.
- Markdown.ParseMarkdown: characters beyond ASCII that Python counts as white space.
- User interface, sound, release scripts, debug tools, simple filters and clamps: they would only add easy members.
