# Fan controller state machine (MSP430G2553), modelled in Dafny

The firmware drives a fan from two push-buttons. The speed button cycles
through four levels: Off, Low, Mid and Full. The enable button switches the
fan off and back on at the level last chosen. Everything happens in three
interrupt handlers in `main.c`:

- `Port1_ISR` handles a falling edge of the speed button.
- `Port2_ISR` handles a falling edge of the enable button.
- `Timer1_A1_ISR` runs when the shared debounce timer expires.

Each button handler records its request and cancels the other one. It then
restarts the debounce timer from zero and keeps ACLK running on exit. The
expiry handler stops the debounce timer and stops the PWM timer TA0. It then
applies the pending request, sets the LED pins of `P2OUT` and the compare
value `TA0CCR1`, restarts TA0, and is meant to pick the sleep depth: LPM3
while the fan is on, LPM4 while it is off. As written it changes the live
status register instead of the copy stacked on entry, so that choice is lost
on return (see "## Findings"). The model keeps both versions: the handler as
written (`ControllerSpec.ExpireAsWritten`) and the handler with the
`_on_exit` intrinsics (`ControllerSpec.Expire`).

The project has three modules:

- `SpeedTable` (`speed_table.dfy`) holds the constant `appStates` table, the
  pin constants, and the wrap-around advance of the level index.
- `ControllerSpec` (`controller_spec.dfy`) describes the globals and
  registers the handlers share as a value, `Machine`. It has one function
  per handler and the invariants the handlers keep. It also has the events
  that drive the controller and lemmas about sequences of presses.
- `Controller` (`controller.dfy`) is the firmware's own form: the class
  `FanController` holds the globals and registers as fields, with one
  method per handler. Each method is proved to move the fields exactly as
  its handler's function in `ControllerSpec` does, and to keep the class
  invariant. The button handlers are modelled as written. `Timer1Isr` is the
  expiry handler with the sleep-bit correction, so it follows `Expire`, not
  `ExpireAsWritten`.

Port registers (`P1IFG`, `P2IFG`, `P2OUT`) are sets of pin numbers. A mask
`BITn` is `{n}`. So `x |= m` is union, `x &= ~m` is set difference, and
`x & m` is intersection. Timer run modes and the `OSCOFF` bit are booleans.
`TA0CCR1` and `TA1R` are natural numbers. Every value stored in them is at
most 10, so their 16-bit width never matters.

An enable press from start-up, where level 0 is selected, is a corner case
of main.c:153-165. The press sets `enabled` to true, lights no LED and keeps
the duty at 0 (`ControllerSpec.ToggleAtOffLevel`). The next speed press then
advances to Low.

## Model

| member | source | states |
|---|---|---|
| `SpeedTable.Entry` | main.c:30-34 | every table entry has a duty within the PWM period (`TA0CCR0` = 10), lights only LED pins, and is "on", has a non-zero speed and has an indicator exactly when it is not entry 0 |
| `SpeedTable.NextIndex` | main.c:138-142 | the advanced index is always in 0..3 and equals (i + 1) mod 4 for an index in range |
| `SpeedTable.EntryLightsAtMostOne` | main.c:30-34 | no table entry lights more than one LED |
| `SpeedTable.LevelAfter` | main.c:138-142 | the level reached after any number of advances is a valid table index |
| `SpeedTable.LevelAfterCounts` | main.c:138-142 | from level 0, n advances of the wrapping index land on level n mod 4 |
| `SpeedTable.TableShape` | main.c:30-34 | speeds strictly increase along the table; the indicators of levels 1..3 are pairwise disjoint single LEDs |
| `ControllerSpec.LitLeds` | main.c:144-160 | in a consistent state at most one LED pin is lit; none exactly when the fan is off or at level 0; otherwise the current level's LED |
| `ControllerSpec.Initial` | main.c:42-119 | after start-up: level 0 selected and disabled, no request, duty 0, LEDs dark, other port 2 pins untouched, both timers stopped, OSCOFF set (LPM4); the state is consistent |
| `ControllerSpec.LatchSpeedEdge` | main.c:74-76 | a falling edge of P1.3 raises its edge flag and changes nothing else |
| `ControllerSpec.LatchEnableEdge` | main.c:84-86 | a falling edge of P2.7 raises its edge flag and changes nothing else |
| `ControllerSpec.SpeedButtonIsr` | main.c:180-197 | with the P1.3 flag raised: only the speed request is pending, `TA1R` is 0, the debounce timer runs, OSCOFF is clear on exit, and the flag is cleared; without the flag nothing changes; the level, LEDs, duty and PWM timer are never touched; the invariants are kept |
| `ControllerSpec.EnableButtonIsr` | main.c:200-217 | the same for P2.7 and the enable request |
| `ControllerSpec.ApplySpeedRequest` | main.c:132-151 | requires TA0 stopped; consumes the speed request; the index stays when the fan is off at a non-zero level, otherwise it advances with wrap-around; afterwards the fan is on exactly when the index is non-zero, and the duty is the cached speed |
| `ControllerSpec.ApplyEnableRequest` | main.c:153-165 | requires TA0 stopped; consumes the enable request and flips `enabled` only; index and cached entry are kept; the duty is the cached speed when on and 0 when off |
| `ControllerSpec.Dispatch` | main.c:126-167 | both requests consumed, debounce timer stopped, TA0 running again; with no request pending the level, LEDs and duty are unchanged |
| `ControllerSpec.Expire` | main.c:123-177 | the expiry handler with the `_on_exit` correction of lines 169-173: `Dispatch` followed by the sleep choice: OSCOFF is set exactly when the fan is off, so the sleep depth matches what is running |
| `ControllerSpec.ExpireAsWritten` | main.c:169-173 | as written, the handler's OSCOFF change is lost on return: the sleep bit stays as it was, and the result differs from `Expire` only in that bit |
| `ControllerSpec.ApplySpeedRequestKeepsInv` | main.c:132-151 | the speed branch keeps the invariant and changes no port 2 pin outside the LEDs |
| `ControllerSpec.ApplyEnableRequestKeepsInv` | main.c:153-165 | the enable branch keeps the invariant and changes no port 2 pin outside the LEDs |
| `ControllerSpec.DispatchCases` | main.c:132-165 | with at most one request pending, the dispatch is exactly the branch of that request, or nothing |
| `ControllerSpec.ExpireKeepsInv` | main.c:123-177 | the corrected expiry keeps the whole consistency invariant and leaves port 2 pins outside the LED mask unchanged |
| `ControllerSpec.ExpireIgnoresEdgeFlags` | main.c:123-177 | the expiry handler neither reads nor writes the port edge flags |
| `ControllerSpec.StepKeepsConsistent` | main.c:123-217 | with the corrected expiry handler, every edge or expiry event keeps the controller consistent, sleep depth included |
| `ControllerSpec.RunKeepsConsistent` | main.c:123-217 | with the corrected expiry handler, any interleaving of edges and expiries keeps the controller consistent, sleep depth included |
| `ControllerSpec.ReachableIsConsistent` | main.c:42-217 | with the corrected expiry handler, every state reachable from start-up is consistent, and at most one LED is lit |
| `ControllerSpec.ExpireAsWrittenKeepsInv` | main.c:123-177 | the expiry handler as written keeps the invariant (index in range, cache equal to the table entry, duty and LEDs following `enabled`, at most one request pending), keeps TA0 running while the fan is on, and leaves port 2 pins outside the LED mask unchanged |
| `ControllerSpec.AsWrittenStepKeepsInv` | main.c:123-217 | with all three handlers as written, every edge or expiry event keeps the invariant and TA0 running while the fan is on |
| `ControllerSpec.AsWrittenRunKeepsInv` | main.c:123-217 | with all three handlers as written, any interleaving of edges and expiries keeps the invariant; only the sleep depth goes wrong |
| `ControllerSpec.AsWrittenReachableKeepsInv` | main.c:42-217 | with all three handlers as written, every state reachable from start-up keeps the invariant, and at most one LED is lit |
| `ControllerSpec.SpeedPressEffect` | main.c:132-151 | a speed press re-enables a fan that is off at a non-zero level without moving the level; otherwise it advances the level with wrap-around and adopts that entry; duty follows the level; the CPU may enter LPM4 exactly at level 0 |
| `ControllerSpec.EnablePressEffect` | main.c:153-165 | an enable press flips `enabled` and keeps the level and cached entry; duty and the LED pins follow |
| `ControllerSpec.SpeedPressAdvances` | main.c:132-151 | one speed press moves a controller showing level k (index, on/off, duty and LED consistent with entry k) to showing the next level |
| `ControllerSpec.SpeedPressesAdvance` | main.c:132-151 | n speed presses move a controller showing level k to showing the level n advances later |
| `ControllerSpec.SpeedPressesFromInitial` | main.c:132-151 | from start-up, n speed presses give level n mod 4, with the fan on exactly when that level is not 0, and the duty and LED of that level |
| `ControllerSpec.DoubleToggle` | main.c:153-165 | two enable presses restore the level, the cached entry, the duty and the whole `P2OUT` latch |
| `ControllerSpec.ToggleAtOffLevel` | main.c:153-165 | at level 0 an enable press flips `enabled`, while the duty stays 0 and no LED lights |
| `ControllerSpec.BouncesCoalesce` | main.c:180-197 | any burst of speed-button edges before expiry leaves exactly the state a single edge leaves |
| `ControllerSpec.EnableSupersedesSpeed` | main.c:200-217 | a speed press followed by an enable press before expiry gives the same result as the enable press alone; only the re-armed port 1 flag differs |
| `ControllerSpec.SpeedSupersedesEnable` | main.c:180-197 | an enable press followed by a speed press before expiry gives the same result as the speed press alone; only the re-armed port 2 flag differs |
| `ControllerSpec.ExpireIdempotent` | main.c:123-177 | a second expiry without a new edge changes nothing, so a press is never applied twice |
| `ControllerSpec.CycleCycleToggleCycle` | main.c:132-165 | Cycle, Cycle, Toggle, Cycle from start-up gives (level, on, duty) = (1, on, 4), (2, on, 7), (2, off, 0), (2, on, 7) |
| `ControllerSpec.AsWrittenStaysOutOfLpm4` | main.c:169-173 | with the handler as written, the trace speed press, expiry, enable press, expiry ends with the fan off, no timer running and OSCOFF still clear; with the intended handler OSCOFF is set |
| `Controller.FanController.constructor` | main.c:42-119 | the fields equal `Initial`, and the class invariant holds |
| `Controller.FanController.LatchSpeedEdge` | main.c:74-76 | sets the P1.3 edge flag and nothing else |
| `Controller.FanController.LatchEnableEdge` | main.c:84-86 | sets the P2.7 edge flag and nothing else |
| `Controller.FanController.Port1Isr` | main.c:180-197 | keeps the class invariant; the fields move as `SpeedButtonIsr` says; with the flag raised, only the speed request is pending, the counter is 0 and running, and OSCOFF is clear; level, LEDs and duty are unchanged |
| `Controller.FanController.Port2Isr` | main.c:200-217 | the same for the enable button |
| `Controller.FanController.SetDuty` | main.c:150-161 | writes `TA0CCR1`; callable only while TA0 is stopped, so every duty write in the handler happens with the counter stopped |
| `Controller.FanController.ConsumeSpeedRequest` | main.c:132-151 | requires TA0 stopped; the fields move as `ApplySpeedRequest` says |
| `Controller.FanController.ConsumeEnableRequest` | main.c:153-165 | requires TA0 stopped; the fields move as `ApplyEnableRequest` says |
| `Controller.FanController.Timer1Isr` | main.c:123-177 | the expiry handler with the `_on_exit` correction of lines 169-173: keeps the class invariant; the fields move as `Expire` says; both requests are consumed; the debounce timer is stopped and TA0 runs; the duty is the level's speed when on and 0 when off; the LED pins show the level's LED when on and nothing when off; other port 2 pins are unchanged; OSCOFF is set exactly when the fan is off; with no request pending, level, LEDs and duty are unchanged |

## Findings

| source | as written | input that shows it | evidently intended | confidence | as-written member | corrected member |
|---|---|---|---|---|---|---|
| main.c:169-173 | The expiry handler chooses the sleep depth with `__bic_SR_register(OSCOFF)` / `__bis_SR_register(OSCOFF)`. These change the live status register. The return from interrupt then reloads the status register stacked on entry. So the choice is lost, and the CPU sleeps in whatever mode it was in before. The button handlers use `__bic_SR_register_on_exit`, which changes the stacked copy. | Start-up, speed press, expiry, enable press, expiry. The fan is off and no timer counts, yet OSCOFF is still clear. The CPU stays in LPM3 instead of LPM4 ("No Speed set, go LPM4"). After the first press it never returns to LPM4. | `__bic_SR_register_on_exit` / `__bis_SR_register_on_exit`, so that OSCOFF is set exactly when the fan is off after each expiry. | medium (follows from the MSP430 status-register semantics of the intrinsics); not executed | `ControllerSpec.ExpireAsWritten`, shown by `ControllerSpec.AsWrittenStaysOutOfLpm4` | `ControllerSpec.Expire`, used by `Controller.FanController.Timer1Isr` and proved in `ControllerSpec.ExpireKeepsInv` and `ControllerSpec.RunKeepsConsistent` |

## Left out

- Peripheral set-up in `main` is not modelled (main.c:40-41, 45-116): the watchdog, the clock source and divider, pin direction, function select and pull resistors, and the timers' clock source, divider, output mode and period. The exceptions are the LED-pin clear (line 90), the initial duty (line 104) and both timers being left stopped (lines 105, 115). These are register settings with no logic.
- The `P2OUT` writes for unused pins and for the enable button's pull-up (main.c:61, 81) are not modelled. `Initial` leaves every port 2 pin outside the LED mask as it was at reset.
- Entering a low-power mode is not modelled (main.c:119). Sleep depth is only the `OSCOFF` flag. Being asleep is not a separate state.
- Counter timing is not modelled: how long 750 ticks of ACLK/8 take, and `TA1R` counting up. The expiry is an event that can happen whenever the debounce timer runs. `TA1R` is only ever reset to 0.
- The PWM waveform itself is not modelled: the reset/set output mode and the period register. Only the compare value and whether TA0 runs are modelled.
- Decoding the timer interrupt vector is not modelled (`TA1IV & TA1IV_TACCR1`, main.c:125), nor clearing it (main.c:175). The handler body is taken as what happens on expiry.
- Interrupt nesting and `volatile` accesses are not modelled. Each handler is one atomic step, and events interleave in any order.
- The `&= ~MC_0` writes (main.c:99, 107) and `|= MC_0` writes (main.c:127, 130, 186, 206) are not modelled. `MC_0` is zero, so they change nothing, and stopping a timer is its run flag becoming false.
- `Step` does not model an edge latched while interrupts are disabled and handled later. An edge is handled at once. The handlers themselves are also modelled with their flag clear (nothing happens).
- Edge flags of other port pins are not modelled. Their interrupts are not enabled, and each handler only tests and clears its own pin.
- `State.h` is not part of this model. The fields `speed`, `indicator` and `enabled` of `struct State` come from the initialisers and uses in `main.c`.
