# Two-button decade counter on an ATmega328P, modelled in Dafny

The firmware in `main.c` drives a seven-segment display on PC0-PC5 and PB4, and two groups of four LEDs, on PD4-PD7 and PB0-PB3. Two push buttons on PD2 and PD3 are active low. After power-on it counts down 5, 4, 3, 2, 1, 0 on the display, sets `cuentaRegresivaTerminada`, and then clears the display. It then polls the buttons forever.

Each rising edge of a button increments that button's 8-bit counter. When the counter would go past 15:
- it is kept at 15;
- the button's whole LED group is lit;
- `conteoCompletado` is set;
- the display shows 1 for the first button or 2 for the second.

Once `conteoCompletado` is set the loop does nothing more. Before the countdown has finished it also does nothing.

On every edge that leaves the counter at 15 or less, the code calls `actualizarLEDs`. That function receives the port register *by value* and changes only its own copy, so no LED changes on those edges. Even on its copy it writes bits 0-3 whatever `ledPins` says. For the first counter those are not its LED pins, D4-D7. The comments say the LEDs show the counter, but the code does not do that. The model follows the code, as the lemmas `Controller.CountedEdge`, `Traces.RunKeepsPorts` and `Traces.BelowSaturation` state.

The project has five modules:

- `Bits` (bits.dfy): single-bit reads and writes on `bv8`. It also defines the bit-by-bit copy that the loop in `actualizarDisplay` and the loop in `actualizarLEDs` perform.
- `SevenSegment` (segments.dfy):
  - the `segmentos` table;
  - the segments each digit lights;
  - a decoder for display patterns.
- `Controller` (controller.dfy): the whole program state as a value. It holds the three output ports, the two counters, the two press latches and the two phase flags. It has one function per piece of the program's logic: writing a digit, the countdown, the handling of one button, and one loop iteration. Lemmas state what each piece does.
- `Traces` (traces.dfy): finite runs of the polling loop. It counts rising edges over a run and proves that a run keeps the counters within 0..15. It describes when counting completes and what the ports hold then.
- `Firmware` (firmware.dfy): the program as it runs. A `Board` object holds the ports and the globals as mutable fields. Its methods perform the C statements in the same order. Each method is proved to agree with the function it implements: a `Controller` function for the display, the countdown and the button blocks, and `Traces.Run` for `Poll` and `Program`. `UpdateLeds` is proved against a bit-by-bit statement of its result. A ghost display log records every pattern written to the display, and each method states what it adds to that log.

## Model

| member | source | states |
|---|---|---|
| SevenSegment.Encode | main.c:29-40 | The table entry for each digit 0-9 never sets bit 7, so only seven lines are driven. |
| SevenSegment.EncodeShowsGlyph | main.c:29-40 | Bit i of each digit's entry is set exactly when segment a+i belongs to that digit's usual seven-segment shape. |
| SevenSegment.EncodeInjective | main.c:29-40 | Distinct digits have distinct patterns. |
| SevenSegment.Decode | main.c:29-40 | A pattern decodes to a digit exactly when that digit's entry equals it, and to nothing when no entry does. |
| SevenSegment.DecodeEncode | main.c:29-40 | Decoding the pattern of any digit returns that digit. |
| Controller.PowerOn | main.c:21-26 | All six globals start at zero, and the start state satisfies the reachable-state invariant. |
| Controller.WritePatternDisplays | main.c:75-87 | After a pattern whose bit 7 is clear is written, the seven display lines carry exactly that pattern. |
| Controller.ShowDigitPins | main.c:71-88 | `actualizarDisplay(n)` sets PC0-PC5 to bits 0-5 of the digit's entry and PB4 to bit 6. It keeps PC6, PC7, every other PORTB bit and all of PORTD. |
| Controller.ShowDigitDisplays | main.c:71-88 | After `actualizarDisplay(n)` the display lines show digit n's pattern, and that pattern decodes to n. |
| Controller.WritePatternOverwrites | main.c:75-87 | A second display write fully replaces the first. |
| Controller.ShowDigitsLast | main.c:94-97 | After a sequence of display writes, the ports are as if only the last digit had been written. |
| Controller.CountdownShows | main.c:94-97 | The k-th digit of the countdown is 5 - k. Right after it is written, the display shows exactly that digit. |
| Controller.ClearDisplayPins | main.c:102-104 | Clearing the display switches all seven segment lines off and keeps every other pin. |
| Controller.ClearAfterWrite | main.c:102-104 | Clearing after a display write leaves the same ports as clearing without it. |
| Controller.CountdownEnds | main.c:94-104 | After the countdown the only change to the ports is the cleared display, so the display is blank. The countdown flag is set, nothing else changes, and the invariant is kept. |
| Controller.LatchFollowsButton | main.c:113-129 | After a button is handled, its latch equals the current reading. |
| Controller.HandleButtonIsolated | main.c:110-151 | Handling one button never changes the other button's counter or latch. |
| Controller.HandleButtonKeepsFlags | main.c:113-129 | Handling a button never touches the countdown flag and never clears the completion flag. |
| Controller.NoEdgeOnlyLatch | main.c:113-129 | A reading that is not a rising edge, either a release or a held button, changes only the latch, which takes the reading. |
| Controller.CountedEdge | main.c:113-123 | A rising edge below 15 increments the counter and sets the latch. The ports stay exactly as they were, LEDs included, and completion is unchanged. |
| Controller.SaturatingEdge | main.c:113-124 | A rising edge at 15 keeps the counter at 15, sets the latch and completes counting. The other counter is unchanged. |
| Controller.SaturatingEdgePorts | main.c:115-119 | On that edge the button's whole LED group is lit and the other group keeps its values. The display shows 1 for button 1 and 2 for button 2. |
| Controller.SaturatingEdgeKeepsPins | main.c:115-119 | On that edge no other pin changes: PD0-PD3, PC6, PC7 and PB5-PB7 keep their values. |
| Controller.HandleButtonWritesShown | main.c:113-124 | A button's part writes the display exactly when its incremented counter passes 15; then counting is complete and the display shows the button's digit. Without a write, no port changes and completion stays as it was. |
| Controller.StepWritesShown | main.c:107-151 | One iteration writes the display at most twice. After a write, counting is complete and the display shows the last pattern written; without one, no port changes and completion stays as it was. |
| Controller.SecondCountsAfterFirstSaturates | main.c:110-151 | In the iteration where button 1 completes counting, button 2's edge is still counted. The display keeps button 1's digit. |
| Controller.BothSaturate | main.c:113-151 | When both counters pass 15 in one iteration, both LED groups are lit and the display ends on 2. |
| Traces.HeldCountsOnce | main.c:113 | Holding a button down for any number of iterations is one edge. It is none if the button was already down. |
| Traces.EdgesNeedReleases | main.c:113-129 | A run of n iterations contains at most ⌊n/2⌋ rising edges if the button starts held, and at most ⌈n/2⌉ if it starts released, because successive edges need a release between them. |
| Traces.RunAppend | main.c:106-152 | Running two stretches of readings one after the other is running their concatenation. |
| Traces.RunFrozen | main.c:107 | Before the countdown has finished, or once counting is complete, no number of iterations changes any pin or global. |
| Traces.RunWritesFrozen | main.c:107 | Before the countdown has finished, or once counting is complete, a run writes nothing to the display. |
| Traces.RunWritesShown | main.c:106-152 | A whole run writes the display at most twice. After a write, counting is complete and the display shows the last pattern written; without one, no port changes and completion stays as it was. |
| Traces.RunWritesOnCompletion | main.c:106-152 | From a state that has not completed, a run writes the display exactly when it completes counting. |
| Traces.StepPreservesValid | main.c:107-151 | One iteration keeps both counters within 0..15 and keeps the other invariants. |
| Traces.RunPreservesValid | main.c:106-152 | Any finite run keeps both counters within 0..15 and keeps the other invariants. |
| Traces.HandleButtonCounts | main.c:113-129 | One button completes counting exactly when an edge finds its counter at 15. Otherwise it adds its edge count and leaves the ports alone. |
| Traces.StepCounts | main.c:107-151 | One counting iteration completes exactly when a counter would pass 15. Otherwise each counter grows by its own edge, and the ports are unchanged. Each latch always ends on its reading. |
| Traces.RunCompletes | main.c:106-152 | A run in the counting phase completes exactly when, for one of the buttons, its counter plus that button's rising edges exceeds 15. |
| Traces.RunCounts | main.c:106-152 | Until counting completes, each counter grows by exactly the number of rising edges of its own button. |
| Traces.RunKeepsPorts | main.c:106-152 | Until counting completes, no port changes, LEDs included. |
| Traces.RunLatches | main.c:106-152 | Until counting completes, each latch holds its button's last reading. |
| Traces.Started | main.c:90-104 | After the countdown the state is valid. The countdown flag is set, and counting has not completed. The counters are zero, the latches are released, and the display is cleared. |
| Traces.BelowSaturation | main.c:110-151 | After the countdown, up to 15 press-and-release cycles of one button give that counter the number of cycles. The other counter stays 0 and counting is not complete. Every port, LEDs included, stays as the countdown left it. |
| Traces.PressAtFifteen | main.c:113-119 | In the counting phase, from counter 15 with the button released, one press and release saturates the counter, whatever the other button's counter and latch. It lights the button's LED group, leaves the other group and the other counter alone, and shows the button's digit. |
| Traces.SixteenthPressSaturates | main.c:110-151 | After the countdown, at the 16th press of one button: its counter is 15, its LED group is lit, its digit is shown, and counting is complete. The other counter is 0, and the other group is as the countdown left it. |
| Firmware.UpdateLeds | main.c:60-69 | The loop of `actualizarLEDs` leaves its local copy with bits 0-3 from the counter and bits 4-7 from the port value passed in. `ledPins` is never used. |
| Firmware.Board.constructor | main.c:21-26 | The globals start zeroed, matching `Controller.PowerOn`, and the display log is empty. |
| Firmware.Board.UpdateDisplay | main.c:71-88 | The table lookup and the writes change the ports exactly as `Controller.ShowDigit`. The display log gains the digit's table entry, which is what the display lines then carry. |
| Firmware.Board.WriteSegments | main.c:75-87 | The bit-by-bit loop over PC0-PC5 and the PB4 write change the ports exactly as `Controller.WritePattern`. |
| Firmware.Board.ShowCountdown | main.c:94-97 | The countdown loop changes the ports as the writes of 5, 4, 3, 2, 1, 0 in that order. The display log gains exactly the patterns of 5, 4, 3, 2, 1 and 0, in that order. |
| Firmware.Board.Countdown | main.c:94-104 | The start of `main` changes the board exactly as `Controller.Countdown`: the six digits, then the flag, then the cleared display. The display log gains the patterns of 5, 4, 3, 2, 1 and 0, in that order. |
| Firmware.Board.Tick | main.c:107-151 | One loop iteration changes the board exactly as `Controller.Step`. It is gated by the two flags, and handles button 1 before button 2. The display log gains exactly `Controller.StepWrites`. |
| Firmware.Board.HandleButton1 | main.c:110-129 | The block for button 1 changes the board exactly as `Controller.HandleButton` for button 1. The `actualizarLEDs` call has no effect on the board. The display log gains the digit 1's pattern exactly on a saturating edge, and nothing otherwise. |
| Firmware.Board.HandleButton2 | main.c:132-151 | The block for button 2 changes the board exactly as `Controller.HandleButton` for button 2. The display log gains the digit 2's pattern exactly on a saturating edge, and nothing otherwise. |
| Firmware.Board.Poll | main.c:106-152 | Polling a finite sequence of readings changes the board exactly as `Traces.Run`. The display log gains exactly `Traces.RunWrites`. |
| Firmware.Program | main.c:90-153 | Power-on, the countdown and a finite stretch of the polling loop end in `Traces.Run` of the started state. The display log holds the patterns of 5, 4, 3, 2, 1, 0, followed by `Traces.RunWrites` of the started state. |

## Left out

- `inicializar` (main.c:42-58) is not modelled. It only writes the data-direction registers and the pull-ups, and clears the LED bits. The ports it leaves are a parameter of `Firmware.Board.constructor` and `Controller.PowerOn`, and the data-direction registers are not part of the state.
- `_delay_ms(1000)` is left out. The model has no clock, so the one-second pause between countdown digits does not appear.
- Reading `PIND` is left out. Each iteration receives the two already-decoded readings `!(PIND & (1 << PD2))` and `!(PIND & (1 << PD3))` as booleans, because the input pins are hardware outside the program.
- The endless `while (1)` loop is modelled over finite sequences of readings (`Traces.Run`, `Firmware.Board.Poll`). A gated iteration is the identity, so after completion the loop's remaining infinite stretch changes nothing (`Traces.RunFrozen`).
- Contact bounce and the electrical timing of the buttons are left out. The model counts rising edges of the sampled readings, and a bouncing button is just a reading sequence with more edges.
- The `uint8_t` globals `boton1Presionado`, `boton2Presionado`, `cuentaRegresivaTerminada` and `conteoCompletado` are booleans. The code only ever assigns them 0 or 1 and only tests them for zero.
- Firmware.UpdateLeds: models the function's local copy of `ledPort` as its result, which the callers discard. In C the function returns nothing, so all the caller can see is that the board is unchanged, which `Firmware.Board.HandleButton1` and `Firmware.Board.HandleButton2` state.
- Digits outside 0..9 are never passed to `actualizarDisplay` by the program, which would otherwise read past the end of the table. The display operations require `n <= 9`.
- Concurrency and interrupts: the program uses none.
- The ghost field `displayLog` of `Firmware.Board` is not part of the C program. It records the pattern on the display lines after each call of `actualizarDisplay`, in the countdown and in the button blocks, so the contracts can say what the display showed and in which order.
