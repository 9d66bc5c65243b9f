# Verified model of the baler controller

This project models the always-on daemon of a round-baler control unit and the operator panel that
commands it, and proves what holds over whole runs. The centre is the daemon's 10 ms control cycle, which
folds bus health, three debounced inputs and a batch of operator commands into three output pulses, a mode
machine, a bale-full latch, a manual-IO watchdog, two persisted counters and calls on the network and bus
ports. Around it stand the hardware loop with the coupler's process image, the counter file, the channel
bring-up and the panel's key loop.

## How it is built

Everything the original updates in place is a class here (`Debouncer`, `PulseEngine`, `BalerState`,
`CounterStore`, `Control`, `WagoBus`, `ControlItem`, `Panel`), and each method is proved equal to a
function on the object's value: `Control.Step` is `Stepped`, `ControlItem.Cycle` is `Cycled`, and so on. The
theorems are about those functions, iterated over whole runs, and `Reload.RunItem`, `Keypad.Panel.Run` with
`Keypad.LoopIsMoments`, and `CounterStore.Valid` with `CounterStore.Reload` tie the objects to the runs:

| file | content |
|---|---|
| `Prelude`, `Ipc` | option and result types, machine-integer ranges, messages and IO values |
| `InputConditioner`, `Pulse`, `Machine`, `Wago` | the four small machines and their histories |
| `Text`, `Ledger`, `Disk`, `Counter` | decimal text, counter arithmetic, the file system, the counter store |
| `Ports`, `Control`, `Runs` | the ports of a mode switch, the control cycle, the object that runs it, and runs of it |
| `ManualMode`, `FullLatch`, `BaleLedger`, `OutputPulses`, `ModeSafety`, `PortTrace`, `Independence` | theorems over every run of the cycle |
| `Process`, `ProcessRuns` | the hardware loop and theorems over every life of a process |
| `Reload` | the object running to its stop, and what its counter file holds at any instant |
| `Bringup`, `Keypad` | retrying channel opens; the panel's key loop |

A run (`Runs.Scenario`, `ProcessRuns.Life`) gives the inputs, commands, deliveries, elapsed times and the
answers of all external calls for every step in advance; since the theorems quantify over all runs, they cover
every behaviour of the environment. Time is a number of steps, or milliseconds handed to a cycle. External calls leave an
ordered trace: port calls, sends, file operations, and the write/pet/publish log. The network and bus objects
write their calls into one shared log (`Ports.PortLog`) themselves.

A command batch may hold anything, including several mode switches. Inside a step the state after each command
is `Runs.Mid`; `Runs.At(r, n)` is the state after n steps and `Runs.OutputsOf(r, n)` what step n drives.

`ProcessRuns.ProcessIsControlRun` shows that every running process is a run of the control cycle on the inputs it
polls, so every theorem about control runs holds of the process as well.

## Where the code differs from its own description

* The switch to Ethernet is described as idle-only (src/baler-core/src/ipc.rs:40, src/baler-core/src/state.rs:28
  and 99-100, spec/requirements/index.rst, REQ_0008), and src/baler-core/src/state.rs:112-113 says that a pulse in flight is only possible while
  Operational. Bus health is folded in before the commands, so a drop in the same step lets the switch past a
  running pulse. `ModeSafety.SwitchedMidPulseIff` gives the exact condition, `ModeSafety.SwitchPastAWrap` a run.
  `ProcessRuns.ProcessSwitchedMidPulseIff` is the condition in a hardware process, where the second case cannot
  arise. `ModeSafety.NoStrandedPulse` shows that without the IO test mode the same step aborts the pulse.
* A 5 s pulse is high in 499 scans of normal control, since the firing step already ticks
  (`OutputPulses.PulseLength`).
* src/baler-core/src/counter.rs:27 promises that a malformed file counts as zero instead of failing the daemon.
  A file that is not valid UTF-8 is malformed too, but reading it fails with an error of another kind than an
  absent file, so loading and start-up fail. `Counter.CounterStore.Load` and `Control.Control.New` state exactly
  when.
* The Ethernet toggle of the service page (src/baler-ui/src/main.rs:691-698) follows its own presses, not the
  daemon's mode. A press asks for the switch exactly if an even number of presses went before it since the last
  return (`Keypad.AsksAsCaptionedIff`), so after a refused switch the next press asks for a return that the daemon
  rejects as well (`Keypad.RefusedSwitchCostsAPress`, `Keypad.DialThenThreeToggles` for the keys).
* The pulse module speaks of counting a completed wrap; counting follows the baler-open input alone
  (`BaleLedger.TotalIsBalesSinceReset`).
* The watchdog port is described as petted from healthy cycles only; every completed cycle pets it, healthy or
  not (`ProcessRuns.LogIsComplete`).
* The counter file is replaced atomically only if the target does not itself end in `.tmp`; otherwise the
  temporary file is the target (`Disk.CrashAtomicIff`). The path the daemon uses has no extension.

## Model

| member | source | states |
|---|---|---|
| InputConditioner.Debouncer.Update | src/baler-core/src/input_conditioner.rs:37-56 | one raw sample moves the debouncer exactly as the sample function used in the history theorems |
| InputConditioner.CountIsTrailingRun | src/baler-core/src/input_conditioner.rs:44-50 | after any history the pending count is the length of the trailing run that disagrees with the level and is below the threshold, so the 8-bit count never saturates |
| InputConditioner.LevelIsLatestWindow | src/baler-core/src/input_conditioner.rs:26-56 | for every history and threshold the level is the value of the most recent window of threshold-many equal samples, or the initial level if there is none |
| InputConditioner.EdgesApart | src/baler-core/src/input_conditioner.rs:35-56 | any two edges are at least the threshold apart |
| InputConditioner.EdgesAlternate | src/baler-core/src/input_conditioner.rs:35-56 | between two edges in one direction lies one in the other |
| InputConditioner.EdgeBudget | src/baler-core/src/input_conditioner.rs:35-56 | n samples give at most n/threshold edges, with the pending count included in the budget |
| InputConditioner.RisingShare | src/baler-core/src/input_conditioner.rs:35-56 | rising edges are half of all edges up to the difference of first and last level |
| Pulse.PulseEngine.Trigger | src/baler-core/src/pulse.rs:37-44 | a trigger is accepted exactly on an idle engine and restarts its clock |
| Pulse.PulseEngine.Tick | src/baler-core/src/pulse.rs:48-62 | a tick advances, completes or aborts the pulse as in the history theorems |
| Pulse.TriggersAreConserved | src/baler-core/src/pulse.rs:37-62 | under every operation sequence, accepted triggers = completions + aborts + 1 if a pulse is running |
| Pulse.ElapsedIsProgress | src/baler-core/src/pulse.rs:56-62 | with ticks of one length the elapsed time is ticks since the trigger times that length, and stays below the duration |
| Pulse.HighTicksBudget | src/baler-core/src/pulse.rs:48-67 | the output is high after at most as many ticks per accepted trigger as fit below the duration |
| Pulse.CompletesOnFirstReach | src/baler-core/src/pulse.rs:56-60 | completion falls on the first tick whose summed lengths (an unbounded sum) reach the duration, whatever rejected triggers arrive |
| Machine.BalerState.OnBusHealth | src/baler-core/src/state.rs:75-88 | the mode and input knowledge after a health sample |
| Machine.BalerState.OnInputs | src/baler-core/src/state.rs:92-97 | conditioned inputs are taken over in mode Operational only |
| Machine.BalerState.Handle | src/baler-core/src/state.rs:101-139 | the new mode and the granted action or rejection for each command |
| Machine.RefusalReasons | src/baler-core/src/state.rs:101-139 | each rejection under its exact condition, the switch accepted in every other state (idle Operational included), and a rejection changes nothing |
| Text.ShowParses | src/baler-core/src/counter.rs:91-91 | every 64-bit number is read back from its decimal rendering |
| Text.LargeNumbersRefused | src/baler-core/src/counter.rs:91-91 | a numeral above the 64-bit range is refused, not wrapped |
| Text.ParseU64IsValue | src/baler-core/src/counter.rs:91-91 | parsing accepts exactly the digit strings of 64-bit value with one optional plus sign, at their positional value |
| Text.ShowIsNumeral | src/baler-core/src/counter.rs:76-81 | a number is rendered as its decimal numeral without leading zeros |
| Text.TrimStrips | src/baler-core/src/counter.rs:91-92 | trimming takes blanks, tabs and line ends off both ends and nothing else |
| Counter.Parse | src/baler-core/src/counter.rs:87-99 | the line loop computes the meaning of the whole text and gives up exactly when some prefix is malformed |
| Counter.RenderParses | src/baler-core/src/counter.rs:76-99 | round trip: any pair of counters survives rendering, line and key splitting, trimming and checked parsing |
| Counter.FormatIsFixed | src/baler-core/src/counter.rs:76-81 | the file's text, byte for byte |
| Counter.LinesOfLine | src/baler-core/src/counter.rs:89-89 | a line ends at a newline, with a carriage return before it or not, or at the end of the text |
| Counter.ParsedMeans | src/baler-core/src/counter.rs:87-99 | parsing gives up exactly if some line has no equals sign or no 64-bit numeral behind the first one; otherwise each counter is the last value given for its key, or 0, and other keys are skipped |
| Counter.LoadedMeans | src/baler-core/src/counter.rs:28-36 | an absent file loads as 0 and 0, any other as the meaning of its text, the rendering of a pair as that pair |
| Ledger.TotalIsBaleCount | src/baler-core/src/counter.rs:44-48 | without a total reset the total is the loaded value plus the bales, held at the 64-bit maximum |
| Ledger.TotalIgnoresSessionEntries | src/baler-core/src/counter.rs:50-61 | deleting all session corrections and resets leaves the total unchanged |
| Ledger.LowWaterIsMinimum | src/baler-core/src/counter.rs:53-56 | the low-water mark used below is the minimum of 0 and all partial sums |
| Ledger.SessionIsReflectedWalk | src/baler-core/src/counter.rs:44-56 | below the cap the session is the walk of its updates reflected at zero |
| Ledger.SessionIsReflectedSinceReset | src/baler-core/src/counter.rs:44-61 | with session resets anywhere the session is the reflected walk of the updates since the last one |
| Ledger.FirstCappedFallsShort | src/baler-core/src/counter.rs:44-56 | the first update that meets the 64-bit cap makes the session strictly smaller than the reflected walk |
| Ledger.ReflectedThroughoutIff | src/baler-core/src/counter.rs:44-56 | every prefix of the updates satisfies the reflected-walk equation if and only if no update meets the 64-bit cap |
| Disk.TmpIsTargetIff | src/baler-core/src/counter.rs:73-73 | the temporary name equals the target exactly if the target's extension is tmp |
| Disk.StoppedKeepsTarget | src/baler-core/src/counter.rs:68-84 | a persist that stops before its rename leaves the target file as it was |
| Disk.CompleteInstalls | src/baler-core/src/counter.rs:68-84 | a persist that runs to its end installs the whole text, synced before it is visible |
| Disk.CrashAtomicIff | src/baler-core/src/counter.rs:68-84 | at every instant of every persist a reader finds the old or the new text, if and only if the target's extension is not tmp |
| Disk.TornWhenAliased | src/baler-core/src/counter.rs:73-83 | the concrete torn read when the temporary file is the target |
| Disk.ReadIsCommitted | src/baler-core/src/counter.rs:68-84 | after any sequence of persists that end anywhere, a reader finds the last completed one |
| Disk.PowerLossReadsACommit | src/baler-core/src/counter.rs:75-83 | if a power loss brings back any earlier directory version and scrambles unsynced files, what is read is still what was committed at that instant |
| Counter.CounterStore.Load | src/baler-core/src/counter.rs:28-36 | loading fails exactly if the read call fails for another reason than an absent file or the file is not text; an absent file or one with a bad line loads as 0 and 0, any other as the last value given for each key, the rendering of a pair as that pair |
| Counter.CounterStore.IncrementBale | src/baler-core/src/counter.rs:44-48 | both counters saturating plus one, and one persist attempt of exactly the new values, which succeeds exactly if all its calls do |
| Counter.CounterStore.AdjustSession | src/baler-core/src/counter.rs:53-56 | the session moves by the signed delta between 0 and the cap, the total stays, one persist attempt, which succeeds exactly if all its calls do |
| Counter.CounterStore.ResetSession | src/baler-core/src/counter.rs:58-61 | only the session becomes zero, one persist attempt, which succeeds exactly if all its calls do |
| Counter.CounterStore.ResetTotal | src/baler-core/src/counter.rs:63-66 | only the total becomes zero, one persist attempt, which succeeds exactly if all its calls do |
| Counter.CounterStore.WriteAndRename | src/baler-core/src/counter.rs:68-84 | whatever call fails, and however much of a write got through, the disk is the result of a prefix of the persist script; it is the whole script, and success, exactly if every call succeeds |
| Counter.ReloadAfterOneUpdate | src/baler-core/src/counter.rs:28-84 | a reload during or after one update finds the old counters, or the new ones exactly if the update completed |
| Counter.CommittedCovers | src/baler-core/src/counter.rs:44-84 | the text committed by a journal of updates is the rendering of the counters after the entries covered by its last completed persist |
| Counter.ReloadAfterCrash | src/baler-core/src/counter.rs:28-84 | for any updates with any failures and a crash at any operation, a reload finds the counters as of the last completed rename |
| Counter.ReloadAfterPowerLoss | src/baler-core/src/counter.rs:28-84 | the same after a power loss that brings back any earlier directory version and scrambles unsynced files |
| Counter.CounterStore.Reload | src/baler-core/src/counter.rs:28-84 | of the store object at any moment: a reload of its file finds the counters after the entries covered by its last completed persist, and exactly the ones in memory if every call worked or the last persist was completed |
| Control.Control.New | src/baler-daemon/src/control.rs:69-90 | loads the counters and starts in the boot state over them; fails exactly when the read call fails or the counter file is not text |
| Control.Control.Step | src/baler-daemon/src/control.rs:97-241 | one cycle on the object, its ports and its counters is the step function of the run theorems, with the outputs and snapshot it returns, and books exactly the cycle's entries in the store |
| Control.Control.Sense | src/baler-daemon/src/control.rs:104-135 | the input phase: health, debouncing, bale edge, latch |
| Control.Control.Dispatch | src/baler-daemon/src/control.rs:138-203 | one command: manual-IO capture, suspension, or the mode machine's verdict carried out |
| Control.Control.Drive | src/baler-daemon/src/control.rs:206-239 | the output phase: watchdog, manual levels or ticked pulses |
| Runs.SensesFollowInputs | src/baler-daemon/src/control.rs:109-126 | in every run the three debouncers have seen exactly the raw history, unhealthy steps included |
| Runs.CommandsIgnored | src/baler-daemon/src/control.rs:149-151 | in manual-IO mode a batch changes nothing but the held bits |
| ManualMode.ManualWindow | src/baler-daemon/src/control.rs:206-216 | a step is driven by hand if and only if one of the last 30 batches, its own included, held a ManualIo |
| ManualMode.ManualOutputs | src/baler-daemon/src/control.rs:142-148 | such a step drives the bits of the last ManualIo of the latest such batch, on a healthy bus, knives-in winning over knives-out |
| ManualMode.IgnoredWindow | src/baler-daemon/src/control.rs:149-151 | the other commands of a step are ignored if and only if one of the 30 batches before it held a ManualIo |
| ManualMode.ManualFreezesPulses | src/baler-daemon/src/control.rs:216-239 | from the last manual batch on, pulses stay as they were for the whole window, across bus drops |
| ManualMode.DeadMan | src/baler-daemon/src/control.rs:206-239 | 30 steps after the stream stops all outputs are low, unless a pulse was running at the end of its last step |
| ManualMode.HeldBitsReachOnlyManualOutputs | src/baler-daemon/src/control.rs:137-265 | noninterference: two runs that differ in ManualIo payloads only agree on every snapshot, counter, mode, latch, pulse and port call, and on all outputs outside manual steps |
| FullLatch.StepOnLatch | src/baler-daemon/src/control.rs:131-160 | one step clears, re-arms or counts down the latch, an accepted wrap winning even over a running pulse |
| FullLatch.LatchIsHistory | src/baler-daemon/src/control.rs:131-160 | the latch shows if and only if one of the last 2000 steps was healthy with debounced full and no wrap was accepted from that step on |
| BaleLedger.CounterMoves | src/baler-daemon/src/control.rs:116-188 | in plain numbers: a counted bale adds one to both counters, each served command adds its delta to the session or clears one counter, between 0 and the 64-bit maximum |
| BaleLedger.CountersAreReplay | src/baler-daemon/src/control.rs:116-188 | between any two steps the counters are the replay of counted edges and served counter commands |
| BaleLedger.CycleBooksStepEntries | src/baler-daemon/src/control.rs:116-126 | the entries a cycle hands to the store are those of the raw history: a debounced DI3 rise in a healthy step, then the served counter commands |
| BaleLedger.BalesAreCountedSteps | src/baler-daemon/src/control.rs:116-126 | the bales among the booked entries are exactly the steps that counted one |
| BaleLedger.TotalIsBalesSinceReset | src/baler-daemon/src/control.rs:111-126 | the shown total is the loaded value, or 0 after the last served reset, plus the later healthy steps in which debounced DI3 rose, capped at the 64-bit maximum |
| BaleLedger.BaleRate | src/baler-daemon/src/control.rs:116-126 | n steps count at most (n/3 + 1)/2 bales |
| BaleLedger.SessionIsReflectedWalk | src/baler-daemon/src/control.rs:174-183 | below the cap the shown session is the reflected walk of bales and served corrections since the last session reset, from 0 if any step since the start served one, wherever in its batch, and from the session at the start otherwise |
| OutputPulses.EngineFollowsOps | src/baler-daemon/src/control.rs:152-239 | each pulse is a pulse engine under the triggers and ticks of its own line, in every run |
| OutputPulses.ShownPulses | src/baler-daemon/src/control.rs:255-256 | in every step the shown flags tell whether the wrap line, or either knife line, has a running pulse by its history of triggers and ticks; outside the IO test mode they are the outputs themselves |
| OutputPulses.EnergisationBudget | src/baler-daemon/src/control.rs:227-239 | in every run each line is high in at most 499 normal steps per firing, and firings = completions + aborts + 1 if running |
| OutputPulses.PulseLength | src/baler-daemon/src/control.rs:227-239 | a pulse that meets no faulted normal step is high in exactly the first 499 normal steps from its firing on and low in the 500th, wherever windows of the IO test mode fall in between |
| OutputPulses.UninterruptedPulse | src/baler-daemon/src/control.rs:227-239 | without such windows these are 499 consecutive steps, the firing step first |
| OutputPulses.FiringCause | src/baler-daemon/src/control.rs:152-173 | a step fires a line if and only if the line is idle and some command of the batch reaches for it |
| OutputPulses.FiringNeedsOperator | src/baler-daemon/src/control.rs:154-173 | a firing takes the operator's command in that batch, a healthy bus and no manual-IO mode, and a knife fires in the direction of debounced DI2 |
| ModeSafety.OutputsAreSafe | src/baler-daemon/src/control.rs:152-239 | in every run the two knife pulses never run together, the two knife outputs are never both high, and an unhealthy step drives nothing |
| ModeSafety.SnapshotIsHonest | src/baler-core/src/state.rs:75-97 | after every step: Operational implies that step was healthy, and the knife position is Unknown if and only if the mode is not Operational, where bale-full and wrap-armed are low too |
| ModeSafety.ShownInputs | src/baler-daemon/src/control.rs:105-114 | the snapshot's raw bits are the step's inputs, and in Operational its indications are the latest windows of three equal samples |
| ModeSafety.NoStrandedPulse | src/baler-daemon/src/control.rs:152-239 | without ManualIo, a step that ends outside Operational leaves all pulses idle and all outputs low |
| ModeSafety.SwitchedMidPulseIff | src/baler-core/src/state.rs:110-124 | in every run a step switches to Ethernet past a running pulse if and only if its commands are not suspended, a pulse was in flight before it, and either the bus is down and the batch asks for a switch, or it starts in Ethernet mode and the batch asks for a return and then a switch |
| ModeSafety.SwitchPastAWrap | src/baler-core/src/state.rs:110-124 | a concrete run in which that happens |
| PortTrace.PortCallsFollowCycle | src/baler-daemon/src/control.rs:189-201 | after every command of every run the calls, as the ports logged them, are a prefix of (suspend, enter_ethernet, enter_ethercat, restart)*, the j-th network call carries the network's j-th answer, and mode and address agree with them |
| PortTrace.ModeIsCallBalance | src/baler-daemon/src/control.rs:189-201 | the mode is Ethernet iff enter_ethernet calls lead by one; the shown address is valid iff in addition the network's latest answer brought one, and is that answer, else 0.0.0.0 |
| PortTrace.SwitchCarriedOutIff | src/baler-core/src/state.rs:110-133 | a command of any batch switches or returns, with the two calls and answers that belong to it, under an exact condition that every idle Operational machine meets |
| PortTrace.ModeIsHistory | src/baler-core/src/state.rs:75-88 | outside Ethernet the shown mode is Operational after a healthy step, Fault after an unhealthy one if a healthy one went before since the machine last started over, else Initializing |
| Independence.DeletingOneLeavesTheOther | src/baler-daemon/src/control.rs:152-173 | without mode switches, deleting every knife command, or every wrap command, changes nothing outside that subject's own pulses (and the latch, for the wrap) |
| Independence.IdleGateCouples | src/baler-core/src/state.rs:114-123 | with a mode switch in the run the idle gate does couple them: a concrete pair of batches |
| Wago.EncodeReadsBack | src/baler-daemon/src/ethercat_io.rs:316-319 | wrap is bit 0, knives-in bit 1, knives-out bit 2 of the output byte, and the upper bits are low |
| Wago.DecodeBits | src/baler-daemon/src/ethercat_io.rs:302-307 | bale-full is bit 0, knife-in bit 1, bale-open bit 2 of the input byte |
| Wago.DrainReadsUpToError | src/baler-daemon/src/ethercat_io.rs:295-301 | a drain keeps the newest byte up to the first receive error and leaves the rest queued |
| Wago.WagoBus.Poll | src/baler-daemon/src/ethercat_io.rs:283-309 | the receive loop computes the drain and decodes the newest byte, or reports not-healthy once suspended |
| Wago.WagoBus.Write | src/baler-daemon/src/ethercat_io.rs:312-323 | a changed byte is sent, and remembered only if the writer accepted it |
| Wago.WagoBus.TakeRestartRequest | src/baler-daemon/src/ethercat_io.rs:328-330 | returns and clears the restart flag |
| Wago.WagoBus.Suspend | src/baler-daemon/src/ethercat_io.rs:346-352 | the connector is gone afterwards, idempotently |
| Process.ControlItem.Cycle | src/baler-daemon/src/main.rs:214-269 | one pass of the executor item is the cycle function of the process theorems |
| ProcessRuns.ProcessIsControlRun | src/baler-daemon/src/main.rs:214-236 | a running process is exactly a control run on its polled inputs |
| ProcessRuns.RunningSwitchedAtMostOnce | src/baler-daemon/src/main.rs:248-252 | a running process has switched to Ethernet at most once and never back; the master is up iff it has not |
| ProcessRuns.WireSafety | src/baler-daemon/src/ethercat_io.rs:312-323 | in every life no byte handed to the writer has both knife bits or an unused bit set, and the remembered output is the last accepted byte |
| ProcessRuns.CycleSends | src/baler-daemon/src/main.rs:214-254 | a cycle sends exactly if it completes with the master up and the byte of its outputs differs from the last accepted one; it sends that byte once, zero in an unhealthy cycle |
| ProcessRuns.InputsAreWireBits | src/baler-daemon/src/ethercat_io.rs:283-309 | in every life the polled inputs are the three bits of the newest byte delivered before a receive error, with the connector's health, and all low once the master is down |
| ProcessRuns.NothingSentAfterSuspend | src/baler-daemon/src/ethercat_io.rs:312-352 | nothing is sent once the master is suspended |
| ProcessRuns.ModesFormWord | src/baler-core/src/state.rs:75-133 | the modes of one process read Initializing*, then empty or Operational(Operational or Fault)*, then Ethernet* |
| ProcessRuns.DeadlineExit | src/baler-daemon/src/main.rs:217-228 | the bring-up deadline ends the process iff 12 s are over, no poll so far was healthy and no earlier cycle ended in Ethernet |
| ProcessRuns.ExitReasons | src/baler-daemon/src/main.rs:217-252 | a process ends exactly by that deadline or by serving a return to EtherCAT |
| ProcessRuns.LogIsComplete | src/baler-daemon/src/main.rs:248-266 | every completed cycle writes once, then pets once, then publishes; the cycle that ends the process does none of these |
| ProcessRuns.EthernetIsIdle | src/baler-daemon/src/control.rs:227-239 | a process in Ethernet mode outside the IO test mode has no running pulse |
| ProcessRuns.ProcessSwitchedMidPulseIff | src/baler-core/src/state.rs:110-124 | in a hardware process a switch passes a running pulse if and only if the commands are not suspended, a pulse was in flight, the mode was not Ethernet, the bus is down in the cycle and the batch asks for the switch |
| Reload.ReloadDuringRun | src/baler-daemon/src/control.rs:116-188 | a crash at any instant of a control run, with any persist failures before, reloads the counters at the end of some step plus some of the next step's own entries; all of them if the last persist was completed |
| Reload.BookedIsRun | src/baler-daemon/src/main.rs:214-252 | a process books exactly what its control run books in its steps, all of them while it runs |
| Reload.RunItem | src/baler-daemon/src/main.rs:205-274 | running the item object until it stops yields exactly the process of the run theorems and its entries, and a file that reloads as a prefix of them, on a working disk as exactly the counters it shows |
| Reload.RunEthercat | src/baler-daemon/src/main.rs:150-281 | from the file to the running process: it gives up exactly when the read call fails or the file is not text, and otherwise is the life that starts from the loaded counters; on a working disk the file reloads as exactly the counters it shows |
| Bringup.RetryOpen | src/baler-core/src/bringup.rs:21-44 | returns the first success or the last permitted error, with exactly the hook calls of that many attempts, at least one even for a limit of 0; result and trace depend on the limit and the outcomes alone |
| Bringup.AttemptsContents | src/baler-core/src/bringup.rs:28-43 | m opens, one cleanup per corrupted error (the last one included), back-offs exactly 1, 2, .., m-1 |
| Bringup.EventsInOrder | src/baler-core/src/bringup.rs:28-43 | every cleanup directly follows the open that failed as corrupted, every back-off follows a failed open or its cleanup and carries its number, and every open comes first or after a back-off |
| Bringup.DelayClosedForm | src/baler-daemon/src/transport.rs:119-121 | the wait over m back-offs is 25m(m+1) ms up to ten and 2750+500(m-10) ms beyond |
| Bringup.OpenWithRecoveryWaits | src/baler-daemon/src/transport.rs:93-108 | opening one channel waits 25(m-1)m ms over its m attempts, whatever their outcomes, at most 2.25 s in all, and that long exactly if the first nine opens fail |
| Keypad.Panel.Frame | src/baler-ui/src/main.rs:616-747 | one frame follows the mode, handles its key events in order and streams the held bits, with the commands it sends |
| Keypad.Panel.Run | src/baler-ui/src/main.rs:616-747 | the frame loop over any number of frames is the frames one after the other |
| Keypad.LoopIsMoments | src/baler-ui/src/main.rs:616-747 | the frame loop is exactly its sequence of moments: same panel and same commands in the same order, so what holds at every moment holds in the loop |
| Keypad.GatedByPin | src/baler-ui/src/main.rs:442-461 | under any keys and modes, ManualIo, ResetTotal and EnterEthernet are sent only while the PIN buffer equals the service PIN |
| Keypad.LoopIsGatedByPin | src/baler-ui/src/main.rs:616-747 | the same of the frame loop: a gated command among those sent in any frames was sent while the PIN buffer held the service PIN |
| Keypad.CommandSources | src/baler-ui/src/main.rs:658-726 | at every moment each command is sent if and only if its softkey is pressed on its page, behind the PIN for the gated ones, and at most one |
| Keypad.DeviceKeys | src/baler-ui/src/main.rs:328-343 | the same by the keys as they sit on the device: F6 wraps, F4 toggles the knives, F2, F1 and F3 reset and correct the session, F5 opens the service page |
| Keypad.PagesMove | src/baler-ui/src/main.rs:616-740 | each page is shown after a moment if and only if the stated key, PIN or mode led there or kept it |
| Keypad.PinIsDialled | src/baler-ui/src/main.rs:672-690 | each PIN digit is the number of Up less Down presses that met the cursor on it since the service page was last opened, modulo ten |
| Keypad.GatedCommandWasDialled | src/baler-ui/src/main.rs:442-461 | a gated command takes digits dialled to 1, 2, 3, 4 since the service page was last opened |
| Keypad.BitsAreHeldKeys | src/baler-ui/src/main.rs:624-650 | on the IO page each bit is set if and only if its key was pressed since the page was opened and not released since that press |
| Keypad.StreamIsHeldKeys | src/baler-ui/src/main.rs:699-747 | every ManualIo carries exactly those held keys, on a page opened by F3 with the service PIN entered |
| Keypad.SelectedIsParity | src/baler-ui/src/main.rs:691-721 | under any keys and modes the toggle is the parity of the unlocked presses since the last return from the Ethernet page |
| Keypad.AsksAsCaptionedIff | src/baler-ui/src/main.rs:691-698 | an unlocked press asks for the switch just when the panel has not seen Ethernet mode, if and only if that parity is even; any other press asks for a return |
| Keypad.RefusedSwitchCostsAPress | src/baler-core/src/state.rs:110-133 | of three presses on the service page the second sends a return, which the mode machine rejects as it rejected the first, and only the third asks for the switch again |
| Keypad.DialThenThreeToggles | src/baler-ui/src/main.rs:666-698 | keys from power-on that bring that about: dial the PIN, then press the toggle three times |

## Left out

* The command and state channels and their codec: a batch is an arbitrary sequence of commands.
* Connector registration, carrier polling and the health pump: a cycle gets its newly delivered messages and the latest health.
* The shell commands behind the network controller and the watchdog device: answers and calls only.
* The host/sim loop, its simulated ports, and the idle snapshot shown while waiting for a carrier.
* Panel rendering, LED beacon, language choice and its persistence, and the panel's local backend: display only.
* Log output.
* Object identity of the outside ports: the bus and network objects are the concrete hardware ones, with scripted answers, instead of trait objects.
* How the executor schedules cycles: Reload.RunItem stands for its main loop, and after a stop request no further cycle of the item runs.
- Disk.PowerLossReadsACommit: assumes that a file already synced keeps its content when an older directory version returns; directory syncing is not done by the code and not modelled.
- Ledger.SessionIsReflectedWalk: stated below the 64-bit cap; Ledger.ReflectedThroughoutIff shows that this is exactly where the equation holds all along. Past the cap no closed form is given.
- Counter.CounterStore.Load: a file's content is a text or is marked as not being one; the UTF-8 coding itself is not modelled.
