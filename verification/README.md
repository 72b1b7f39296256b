# The coin machine: a verified model

The repository drives a coin-counting machine on a Raspberry Pi: three infrared
sensors count 500, 100 and 50 won coins in three threads, four keys steer the
machine, a motor runs while coins are inserted, and a multiplexed 8x8 dot matrix
scrolls the results. This project models the application (`receive/test_mac.c`)
together with the drivers under it and proves properties of whole runs: for every
interleaving of main, the sensor threads and the key interrupts, and for every
sensor input, what can be read off the display is what the debounce rule counts in
the samples.

## How it is laid out

| file | what it holds |
|---|---|
| `Gpio.dfy` | the register block: set/clear words, the output latch, every value it takes during a sequence of writes |
| `FunctionSelect.dfy` | what the nine opens do to the function-select words |
| `ConcurrentOpen.dfy` | two opens on one word at the same time, access by access |
| `DotMatrix.dfy` | the dot matrix driver in both wirings: `DotDriver`, and every micro-state of its write loop |
| `Led.dfy` | the 8x8 LED driver with gauge and digit mode: `LedDriver` |
| `KeyEvents.dfy` | the event flag of the key drivers: `KeyDriver`, and histories of interrupts, tests and clears |
| `Devices.dfy` | sensor and motor drivers |
| `Debounce.dfy`, `CoinGaps.dfy` | the sampling loop with its six-sample skip, what it counts, and exactly which gaps between coins it can tell apart |
| `Sequences.dfy` | concatenation is associative |
| `Digits.dfy`, `Cells.dfy`, `Buffers.dfy`, `Glyphs.dfy`, `Fonts.dfy` | digit loops, eight-byte cells, copy loops, glyph tables |
| `Reports.dfy`, `Rendering.dfy` | the texts of the three reports, reading them back, and the code that fills the buffers |
| `Scroll.dfy` | the sliding window over a buffer, and recovering the buffer from what was shown |
| `BlindReader.dfy`, `FontInk.dfy` | reading a report without knowing how often each window was shown |
| `Pictures.dfy`, `Drawings.dfy` | eight by eight pictures as text, and how every digit and glyph is drawn |
| `Machine.dfy` | the whole machine as interleaved steps |
| `MachineSafety.dfy`, `MachineCounting.dfy`, `MachineDisplay.dfy`, `MachineKeys.dfy` | the invariants of its reachable states |
| `MachineInputs.dfy` | what a run delivers and shows, counted over the run and not over what the machine remembers |
| `MachineProgress.dfy`, `MachineLiveness.dfy` | what a round of the menu does, and exactly when the machine can still be switched off |
| `MachineWitnesses.dfy` | runs from power-on in which what the other theorems allow does happen |
| `MachineEnding.dfy` | which presses of key 2 end insertion, and how soon |
| `MachineRuns.dfy`, `CoinMachine.dfy` | the theorems about runs, and the end-to-end theorem with the machine's own glyph tables |

`Machine.Next` is one step: an interrupt of a key; a step of main; a step of one
sensor thread with the level its sensor has now. `Machine.Run` is a run. A poll of a
key is two steps, the test of the flag and the clear of it, as in the driver, so
interrupts and other pollers can come in between; a register write is one step. The
second half of `Machine.State` is history (event logs, samples read, latch values
while a report is shown) and is never read by a step. Levels, interrupts, rises of the motor
pin and the latch values of reports are also counted over the run itself (`MachineInputs`),
and the history is proved to agree with that.

## Modelling decisions

- A 32-bit register word is the set of its one-bits. `|` is union, `& ~` is
  difference, a shifted byte is the set of its shifted bits. No shift in these
  drivers passes bit 31.
- Plain `char` is unsigned, as on ARM (`receive/Makefile:12`). With a signed `char`,
  `val[index] << 10` in `receive/dot_driver.c:83` would also drive pins above 17.
- `receive/mot_driver.c:63-64` uses `|=` on the set and clear words. The model takes
  them to read as zero; `Devices.MotorWriteIsClean` says exactly when other values
  would do no harm.
- The dot driver reads eight bytes from the caller's pointer although it is called
  with length 1 (`receive/dot_driver.c:78-80`). The scrolling window needs those eight bytes.
- `key2_ev` has one element (`receive/test_mac.c:35`) and is used with four
  (`receive/test_mac.c:152-161`); the model has four.
- `receive/dot_driver.c` does not blank its lines when it is opened. The model starts
  with any latch value except that the motor pin is low; the first blank glyph that
  main writes clears the display lines (`DotMatrix.WriteBlanks`).
- The kernel may scan the driver's poll more than once before a sensor thread's poll
  times out; each thread step carries the number of extra scans. Main's polls loop anyway.
- A failing poll stops main (`Aborted`). A report whose number does not fit an `int`
  is undefined in C; the model stops there (`Undefined`) and `MachineRuns.NoOverflowBelowBound`
  shows when that cannot happen.
- The dot matrix glyphs are stored column by column, so a row line of the display carries a column
  of a glyph; the LED digits are stored line by line, the highest bit leftmost. Both are drawn in `Drawings`.
- How often a window is written depends on `clock()`; the model allows any number of
  times from one on, chosen separately for every window.
- Readers of the display see rows: a latch value with a select line high is a row with
  its data lines. `Scroll.Recover` rebuilds the whole buffer from the rows, given how
  often each window was shown; `BlindReader.BlindRead` reads the lit bytes without knowing
  that, and `CoinMachine.LooksTellReports` shows that this is enough to tell reports apart.

Where code and comments disagree the code is followed: `receive/sens_driver.c:46`
and its siblings say "output(GPIO 6)" above statements that make pins 18, 7 and 8
inputs; `dddd/dot_driver.c:43` says pins 20 to 27 above a loop over 2 to 9; and the
edge bits that `receive/key_driver3.c:79` and `receive/key_driver4.c:79` enable are
those of pins 2 and 5, not of the pins 4 and 6 whose interrupts they request.

## What turned out false, and exactly when

- Ending coin insertion does not need a press of key 2 after the start: a press while
  the machine waits for key 1 stays in the flag. `MachineRuns.EarlyKey2Counts` gives the
  exact condition, `MachineWitnesses.EarlyPressOccurs` a run for either side of it.
- One press is not one report: three threads poll the flag of key 2. In every run a press
  is reported at most once if and only if the key is not key 2
  (`MachineWitnesses.ReportedOnceExactly`); for key 2 three times is the most
  (`MachineRuns.KeyReportsBounded`) and does happen (`MachineWitnesses.ThreeReportsOccur`).
- An interrupt can be lost: `MachineRuns.KeyInterruptLost` says exactly when,
  `MachineWitnesses.InterruptIsLost` gives a run.
- The machine cannot always be switched off: a report that was asked for before key 1 and
  whose number is not an `int` is computed first. `MachineLiveness.CanSwitchOff` is exact,
  `MachineWitnesses.OverflowOccurs` gives a run that ends there.
- Opening the sensors commutes in sequence (`FunctionSelect.SetupCommutes`) but the
  threads open them concurrently; `ConcurrentOpen.ConcurrentOpensExact` says when that is safe.
- With what power-on left on the display lines a write need not show its bytes; `DotMatrix.StaleDataShows`
  says for every latch whether it does.
- Coins can be missed. Any stream of samples is a list of runs of high samples with gaps, and the
  count is the sum of ceil(length / 7) over its runs if and only if they are far enough apart
  (`CoinGaps.StreamExactly`, on the display `MachineRuns.ReportExact`). For coins of at most seven
  samples that means: every stretch from the first sample of one to the last high sample of the
  n-th after it is longer than 7n samples (`CoinGaps.RoomyCoins`). Gaps of six are always enough
  (`CoinGaps.SpacedIsApart`) but not always needed: two coins are counted as two exactly when they
  span at least eight samples (`CoinGaps.TwoCoins`).
- A press of key 2 during insertion need not end it: `MachineEnding.PressEndsUnlessLost` says which
  presses do, `MachineWitnesses.EndPressIsLost` gives a run in which one does not.

## Model

| member | source | states |
|---|---|---|
| `CoinMachine.MoneyShownIsMoneyInserted` | receive/test_mac.c:112-257 | for every run, the money report read off the rows on the display, with the machine's own glyphs, is 500a+100b+50c when a, b, c coins, each high for one to seven samples and far enough apart, went past pins 18, 7 and 8, whatever low samples come around them and whichever are missing |
| `CoinMachine.ThreadsHearPins` | receive/test_mac.c:579-662 | when every thread reads the level of its own sensor's pin, the three threads hear pins 18, 7 and 8 |
| `MachineRuns.DisplayShowsCoins` | receive/test_mac.c:175-557 | in every run each finished report reads back as the total, the three counts or the number of coins that the debounce rule gives for all levels that the sensors delivered in the run |
| `MachineInputs.SamplesAreHeard` | receive/test_mac.c:586-600 | what each thread remembers as its samples is, in every run, exactly the levels that the run's actions delivered at that thread's reads, in order |
| `MachineInputs.ReportsAreWatched` | receive/dot_driver.c:82-89 | the latch values of a finished report are those that the output lines had after each of main's steps from its first register write to its last |
| `MachineRuns.DisplayShowsFaceValue` | receive/test_mac.c:182-257 | the same for face value, for any font of distinct glyphs and the levels of the run's actions |
| `CoinMachine.LooksTellReports` | receive/test_mac.c:243-251 | two finished reports, of one run or two, whose rows look the same are of the same kind and say the same numbers, however often each window was shown: no viewer has to know the repetitions |
| `MachineRuns.ReportExact` | receive/test_mac.c:175-557 | for every run, every kind of report and any levels at all, seen as runs of high samples: the report shows what is due, ceil(length / 7) for each run (for a coin of at most seven samples: one), if and only if each sensor's runs were far enough apart |
| `MachineRuns.DisplayIsSafe` | receive/dot_driver.c:82-89 | after every step of every run: nothing is lit between writes or after a poll error in the menu; while a report is shown, one row of one window of it at most; while a blank glyph is written, one row of it at most. The exceptions are named exactly: before the first write, and after a poll error before it, the lines are what power-on left; for the first three register writes they are that, changed by those writes |
| `MachineRuns.MenuCountersRest` | receive/test_mac.c:126-144 | once main has joined the threads, wherever it goes or stops after that, no further steps, keys or interrupts change a counter or read a sample |
| `MachineRuns.StateNeverDecreases` | receive/test_mac.c:89-144 | `mac_state` only grows and stays within 0..2 along every continuation of a reachable state |
| `MachineRuns.PhasesAreCaused` | receive/test_mac.c:89-179 | main finds itself at the thread-creating body at most once in any run and has once past it; start needs an interrupt of key 1, end of insertion one of key 2, switching off one of key 1 later than the poll that started the machine; entries and interrupts are counted over the run's actions |
| `MachineRuns.OffNeedsLaterPress` | receive/test_mac.c:152-179 | from any state before the starting poll is cleared, no continuation switches the machine off by key 1 without a further interrupt of key 1 |
| `MachineInputs.IrqsAreInterrupts` | receive/key_driver.c:28-41 | the log of each key has exactly the interrupts that the run has of it |
| `MachineRuns.EarlyKey2Counts` | receive/test_mac.c:601-605 | at the start of insertion: it can end without another interrupt of key 2 if and only if key 2 had interrupted before |
| `MachineRuns.MotorIsSafe` | receive/test_mac.c:120-132 | in every reachable state the motor's pin is high if and only if main is between raising it and lowering it (second blanking, joins, last guard); then all three threads exist; over the whole run the pin goes high once at most, and once if main is past the joins |
| `MachineRuns.ThreadsStop` | receive/test_mac.c:586-606 | after insertion ends, a running thread finishes within a bounded number of its own steps under any interleaving, and counts at most one more coin |
| `MachineRuns.KeyReportsBounded` | receive/test_mac.c:587-590 | in every run, ready polls are at most three times the interrupts of key 2 and at most the interrupts of any other key |
| `MachineRuns.KeyInterruptLost` | receive/key_driver.c:43-54 | in every run, a cleared interrupt is never reported if and only if it fell between the test and the clear of a poll that had read zero, with no other test before the clear |
| `MachineEnding.EndsByReportsOnly` | receive/test_mac.c:587-605 | in every reachable state: insertion is over, or some thread has a ready poll in hand, if and only if some press of key 2 has been reported |
| `MachineEnding.ReadyEnds` | receive/test_mac.c:587-605 | a thread with a ready poll in hand ends insertion after a number of its own steps that its place gives, under every interleaving |
| `MachineEnding.ReportedPressEnds` | receive/test_mac.c:587-605 | once a press of key 2 has been reported there is a thread such that every continuation with ten of its steps has ended insertion |
| `MachineEnding.PressEndsUnlessLost` | receive/test_mac.c:587-605 | so does every press that has been cleared, unless it fell between the test and the clear of a poll that had read zero, with no other test before the clear |
| `MachineRuns.ReportsTakePresses` | receive/test_mac.c:175-482 | there are never more reports of a kind than interrupts of the key that asks for it |
| `MachineRuns.NoOverflowBelowBound` | receive/test_mac.c:190 | no run reaches an overflow while each counter is at most 3303820 |
| `MachineRuns.FailStops` | receive/test_mac.c:93-100 | whatever follows a failing poll of main, main does nothing more and the output lines stay as they were |
| `Machine.FitsExactly` | receive/test_mac.c:190-489 | a report is computed if and only if every number that its text names is at most 2147483647 |
| `MachineLiveness.CanSwitchOff` | receive/test_mac.c:89-257 | for every reachable state: some continuation switches the machine off by key 1 if and only if main has not stopped (poll error, overflow) and, inside a round of the menu, key 1 is in hand or can still be pressed in time, or every report in hand or still to be polled this round fits an `int` |
| `MachineLiveness.JoinsEnd` | receive/test_mac.c:120-129 | whatever the threads are doing, the joins can be completed and leave the machine in state 2 |
| `MachineProgress.MenuAnswers` | receive/test_mac.c:144-561 | for every run of main alone from the menu's guard: when it is back there or off for the first time, all four flags are down; a raised key 1 has switched off without a report; otherwise each of keys 2 to 4 has got exactly one report if its flag was raised, however often it interrupted, and none if not |
| `MachineProgress.MenuReturns` | receive/test_mac.c:144-561 | such a run of main alone exists whenever key 1 is raised or the reports asked for fit an `int` |
| `MachineWitnesses.ReportedOnceExactly` | receive/test_mac.c:587-605 | that a press is reported at most once in every run holds of a key if and only if it is not key 2 |
| `MachineWitnesses.ThreeReportsOccur` | receive/test_mac.c:587-605 | from power-on, a run with one interrupt of key 2 that all three threads report |
| `MachineWitnesses.EarlyPressOccurs` | receive/test_mac.c:89-120 | from power-on, runs to the start of insertion with key 2 pressed before and without |
| `MachineWitnesses.InterruptIsLost` | receive/key_driver.c:48-51 | from power-on, a run in which an interrupt of key 1 is cleared and never reported |
| `MachineWitnesses.EndPressIsLost` | receive/test_mac.c:587-605 | from power-on, a run in which a press of key 2 during insertion is lost inside a thread's poll and insertion goes on |
| `MachineWitnesses.ReportOccurs` | receive/test_mac.c:182-557 | from power-on, for each kind of report and any counts of the three sensors whose total is an `int`: a run that counts them and shows one |
| `MachineWitnesses.AnyPaceOccurs` | receive/test_mac.c:243-251 | from power-on, for any such counts and any numbers of repetitions from one on: a run that shows the total with exactly those repetitions |
| `MachineWitnesses.LooksAgain` | receive/test_mac.c:587-590 | while key 2 is down, a thread's poll tests and clears the flag once and once more for every extra scan |
| `MachineWitnesses.OverflowOccurs` | receive/test_mac.c:190 | from power-on, a run with enough coins in which asking for the total overflows |
| `MachineRuns.Always` | receive/test_mac.c:31-680 | the invariant holds after every run from a state that has it |
| `MachineRuns.InvariantKept` | receive/test_mac.c:31-680 | every step of main, of a thread or of an interrupt keeps every part of the invariant |
| `MachineSafety.ControlKept` | receive/test_mac.c:89-144 | main's place determines which threads exist or have finished, how often the loop body ran and the motor was raised; no step lowers `mac_state` |
| `MachineSafety.FlagsKept` | receive/key_driver.c:28-54 | each driver flag is the value its history gives, and interrupts are only added |
| `MachineSafety.EndedBySinceKept` | receive/test_mac.c:601-605 | relative to any number of interrupts set aside: a ready poll in a thread, or the end of insertion, implies a later interrupt of key 2 |
| `MachineSafety.StartedByKey1Kept` | receive/test_mac.c:93-108 | a pending switch-off implies an interrupt of key 1 after the poll that started the machine |
| `MachineCounting.SamplingKept` | receive/test_mac.c:586-600 | every counter, at every place in the sampling loop, stands in the debounce relation to all samples read so far |
| `MachineCounting.FinishedCounts` | receive/test_mac.c:586-607 | a finished thread's counter is the debounced count of its whole sample history |
| `MachineCounting.FinishedStays` | receive/test_mac.c:126-128 | with all threads finished, no step changes a counter, reads a sample or revives a thread |
| `MachineCounting.ThreadProgress` | receive/test_mac.c:622-642 | once insertion is over each step of a running thread lowers its measure |
| `MachineDisplay.MotorSafeKept` | receive/mot_driver.c:63-64 | every step keeps that the motor pin is high exactly while main is between raising and lowering it |
| `MachineDisplay.DisplayKept` | receive/dot_driver.c:82-89 | the latch is always a prefix of the current write applied to a blank display, and blank between writes |
| `MachineDisplay.ReportsKept` | receive/test_mac.c:243-251 | every finished report showed exactly the rows of the image of the counters, and reports exist only after all threads finished |
| `MachineDisplay.GlyphsAppear` | receive/test_mac.c:212-251 | the windows at multiples of eight show the glyphs of the text, row by row |
| `MachineKeys.PollsKept` | receive/test_mac.c:93-161 | the pollers of each key alternate test and clear, and the polls in progress are exactly those that main's and the threads' places say: three at a time on key 2, one on the others |
| `MachineKeys.CoveredKept` | receive/test_mac.c:175-482 | reports shown, a press in hand and presses in the flag together never exceed the interrupts of their key |
| `Debounce.DebounceExact` | receive/test_mac.c:586-600 | any low samples, then pulses of any lengths with gaps of at least six low samples: the count is the sum of ceil(length / 7) |
| `Debounce.ShortPulsesCountOnce` | receive/test_mac.c:591-600 | in such a stream pulses of one to seven samples count once each |
| `CoinGaps.StreamExactly` | receive/test_mac.c:586-600 | for any samples whatever: no run of high samples counts more than ceil(length / 7), and the count is that sum if and only if the runs are far enough apart |
| `CoinGaps.PulsesExactly` | receive/test_mac.c:586-600 | the same for low samples followed by runs of any lengths with any gaps, so for every way of writing a stream |
| `CoinGaps.CoinsExactly` | receive/test_mac.c:586-600 | for pulses of one to seven samples anywhere in a stream: none counts twice, and all are counted if and only if they are far enough apart |
| `CoinGaps.RoomyCoins` | receive/test_mac.c:586-600 | what far enough apart means for them: every stretch from the first sample of one to the last high sample of the n-th after it is longer than 7n samples |
| `CoinGaps.TwoCoins` | receive/test_mac.c:595-600 | two coins of one to seven samples in a stream count as two if and only if they span at least eight samples, whatever low samples come before and after |
| `CoinGaps.SpacedIsApart` | receive/test_mac.c:595-600 | runs of any lengths with gaps of at least six low samples are far enough apart |
| `CoinGaps.IdleIsNoCoin` | receive/test_mac.c:586-594 | any number of low samples is what a sensor without coins delivers |
| `Debounce.CoinsIsLargest` | receive/test_mac.c:586-600 | the count is at least the size of every set of high samples seven apart |
| `Debounce.CoinsIsAttained` | receive/test_mac.c:586-600 | and some such set has exactly that size |
| `Debounce.ScanCounts` | receive/test_mac.c:586-600 | counting sample by sample with a skip counter agrees with taking a hit and dropping six |
| `Debounce.CountCoins` | receive/test_mac.c:586-600 | the loop with its `fir` flag and inner skip loop returns that count for every finite stream |
| `KeyEvents.FlagCountsSinceClear` | receive/key_driver.c:34-51 | the flag is the number of interrupts since the last clear |
| `KeyEvents.ReadyMeansPending` | receive/key_driver.c:48-49 | a poll is ready if and only if an interrupt since the last clear precedes its test |
| `KeyEvents.LostExactly` | receive/key_driver.c:48-51 | for a given poll: when the interrupt it wipes goes unreported |
| `KeyEvents.LostInsidePoll` | receive/key_driver.c:43-54 | the same without naming the poll, for any number of alternating pollers |
| `KeyEvents.ReportsBounded` | receive/key_driver.c:43-54 | with at most n polls at a time, ready polls are at most n times the interrupts |
| `KeyEvents.KeyDriver.Handler` | receive/key_driver.c:28-41 | adds an interrupt to the history the flag stands for; counts a press only when the pin reads low |
| `KeyEvents.KeyDriver.PollTest` | receive/key_driver.c:48-49 | reports whether the flag of the history was raised |
| `KeyEvents.KeyDriver.PollClear` | receive/key_driver.c:51 | zeroes the flag whatever it holds |
| `KeyEvents.KeyDriver.Open` | receive/key_driver.c:56-88 | refuses a second open; otherwise updates one function-select field and one edge bit |
| `KeyEvents.KeyOpens` | receive/key_driver4.c:75-79 | opening a key makes exactly the pin that its handler reads an input, keys 1 to 4 on pins 2, 3, 4 and 6, and enables edges 2, 3, 2 and 5 |
| `KeyEvents.KeyDriver.Read` | receive/key_driver.c:99-112 | the press counter is the number of low presses modulo 256 |
| `DotMatrix.WritesAreSafe` | receive/dot_driver.c:82-89 | over any sequence of writes, after every register write: at most one select line high, only pixels whose bit is zero lit, data moves only in the dark, other pins untouched; the latch ends as it began |
| `DotMatrix.MicroStates` | receive/dot_driver.c:82-89 | the exact latch after each of the 32 register writes |
| `DotMatrix.WriteShows` | receive/dot_driver.c:82-89 | from a blank display a write shows exactly its eight bytes, one row each, in order |
| `DotMatrix.WriteBlanks` | receive/test_mac.c:118-119 | from any latch a write leaves all sixteen lines low and every other pin as it was |
| `DotMatrix.StaleDataShows` | receive/dot_driver.c:37-48 | from whatever latch, a write shows its eight bytes and nothing else if and only if no select line was left high and the data lines left high are ones the first byte drives high anyway |
| `DotMatrix.WiringsAgree` | dddd/dot_driver.c:82-89 | after every prefix of the loop, the two drivers' panels (select line r, data lines) are equal |
| `DotMatrix.OpenMakesOutputs` | dddd/dot_driver.c:37-47 | either open makes exactly its sixteen pins outputs and leaves every other pin's function |
| `DotMatrix.DotDriver.Open` | receive/dot_driver.c:20-49 | the two setup loops, in either wiring; a second open is refused |
| `DotMatrix.DotDriver.Write` | receive/dot_driver.c:76-91 | the copy and multiplex loops perform exactly the 32 writes of the eight bytes at the given offset |
| `Led.OnlyAskedPixelsLit` | led_driver.c:93-117 | for every input 0..18 and every micro-state, whatever the latch held before, a lit pixel is one of the gauge's columns or of the digit as it is drawn in `Drawings` |
| `Led.AskedPixelsLit` | led_driver.c:93-117 | over all micro-states of a write, a pixel of the drawn digit is lit in exactly as many as there are refreshes, a gauge pixel in one, any other pixel in none |
| `Led.NumIsDrawn` | led_driver.c:25-36 | the digit table holds the ten drawings, line by line |
| `Led.DigitMicroStates` | led_driver.c:103-116 | digit mode is the eight rows in order, any number of times: the exact latch after each register write |
| `Led.WriteEnds` | led_driver.c:94-117 | digit mode ends blank, gauge mode k ends with exactly k columns lit in every row |
| `Led.CountIsRow` | led_driver.c:24 | the row table selects exactly the row it is indexed with |
| `Led.LedDriver.Open` | led_driver.c:40-67 | makes the sixteen pins outputs and leaves the display blank |
| `Led.LedDriver.Write` | led_driver.c:93-119 | performs exactly the register writes of the input; over them each pixel of the drawn digit is lit 50000 times and no other pixel ever |
| `Led.LedDriver.Refresh` | led_driver.c:103-116 | the nested refresh loops perform the eight rows once per turn |
| `FunctionSelect.ClearThenOrIsFieldUpdate` | receive/mot_driver.c:35-36 | clear-then-or is an update of one three-bit field and keeps every other bit |
| `FunctionSelect.SetupCommutes` | receive/key_driver.c:75-79 | from any register contents, every order of the nine opens ends in the same words |
| `FunctionSelect.FinalModes` | receive/dot_driver.c:37-47 | afterwards keys and sensors are inputs, motor and display outputs, and every other pin keeps its function |
| `FunctionSelect.FinalOtherBits` | receive/key_driver3.c:75-79 | the unused bits stay, and edge detection gains exactly bits 2, 3 and 5 |
| `ConcurrentOpen.ConcurrentOpensExact` | receive/sens_driver2.c:47-48 | opening the two sensors on word 0 concurrently ends like opening them in turn under every schedule if and only if both pins already are inputs |
| `ConcurrentOpen.SequentialTurns` | receive/sens_driver2.c:47-48 | one open after the other, in either order, ends in the word of the drivers' opens |
| `ConcurrentOpen.OtherFieldsKept` | receive/sens_driver3.c:47-48 | under every schedule the other fields of the word keep their bits |
| `Devices.MotorWriteIsClean` | receive/mot_driver.c:63-64 | the read-modify-write of the motor pin does only its job if and only if the bits read back name pins already in the written state |
| `Devices.MotorDriver.Write` | receive/mot_driver.c:49-68 | 1 raises the pin, 0 lowers it, any other byte does nothing; other pins keep their state |
| `Devices.MotorDriver.Open` | receive/mot_driver.c:20-39 | makes pin 9 an output once |
| `Devices.MotorOpens` | receive/mot_driver.c:35-36 | opening the motor makes pin 9 an output and keeps the function of every other pin |
| `Devices.SensorOpens` | receive/sens_driver2.c:47-67 | opening a sensor makes exactly the pin that it is read from an input |
| `Devices.SensorDriver.Open` | receive/sens_driver.c:28-51 | makes the sensor's pin an input once, for each of the three drivers |
| `Devices.SensorDriver.Read` | receive/sens_driver2.c:62-77 | for the thread that reads it, each of the three drivers moves the debounce rule on by exactly the returned sample, and its buffer keeps the last sample of the history, never more than 1 |
| `Digits.CountDigits` | receive/test_mac.c:193-196 | the length loop returns the number of decimal digits, one for zero |
| `Digits.FillDigits` | receive/test_mac.c:200-206 | the digit loop stores the canonical decimal form reversed and returns its length |
| `Digits.DecimalMeans` | receive/test_mac.c:193-206 | that form has no leading zero and its value is the number |
| `Digits.DecimalUnique` | receive/test_mac.c:193-206 | it is the only such form |
| `Digits.IntNeedsTenDigits` | receive/test_mac.c:193-198 | ten digits are enough for every `int` |
| `Digits.MoneyFits` | receive/test_mac.c:190 | the total fits an `int` for all counters up to a bound if and only if the bound is at most 3303820 |
| `Buffers.PutCells` | receive/test_mac.c:212-220 | appends cells to the bytes written so far and keeps those |
| `Buffers.PutReversed` | receive/test_mac.c:223-231 | appends the table rows of the digits, last array element first |
| `Rendering.TotalMoney` | receive/test_mac.c:189-237 | the money buffer is exactly filled, 8(size+3) bytes, and is the image of the report's text |
| `Rendering.EachCoin` | receive/test_mac.c:270-461 | the same for the three counts, 8(size+size2+size3+16) bytes |
| `Rendering.TotalCoins` | receive/test_mac.c:488-540 | the same for the number of coins, 8(size+4) bytes |
| `Fonts.FontIsValid` | receive/test_mac.c:45-63 | all fifteen glyphs are pairwise distinct |
| `Fonts.GlyphsAreDrawn` | receive/test_mac.c:45-63 | each glyph's bytes, column by column, light exactly the pixels of its drawing in `Drawings` |
| `Glyphs.DecodeImage` | receive/test_mac.c:45-63 | the bytes of a text read back as that text |
| `Glyphs.DecodeSound` | receive/test_mac.c:45-63 | no other bytes read as it |
| `Reports.ReportsAgree` | receive/test_mac.c:188-540 | three buffers are the reports of (a, b, c) if and only if they read as (a, b, c), 500a+100b+50c and a+b+c |
| `Reports.MoneySound` | receive/test_mac.c:212-237 | only the money report of these counters parses to their total |
| `Reports.EachIsWorth` | receive/test_mac.c:316-461 | read without knowing its labels, the report of the counts is the three pairs (500, a), (100, b), (50, c), and the sum of face times count is what the money report of the same counters says |
| `Reports.EachRoundTrip` | receive/test_mac.c:316-461 | the report names the faces 500, 100 and 50, in that order, with the three counts |
| `Reports.EachSound` | receive/test_mac.c:316-461 | and only that report does |
| `Scroll.ScrollShows` | receive/test_mac.c:243-251 | on a blank display scrolling shows exactly the windows' rows and leaves the latch as it was |
| `Scroll.ScrollIsSafe` | receive/test_mac.c:243-251 | after every register write of a scroll one row of one window of the buffer is lit at most, and other pins are untouched |
| `Scroll.WindowRow` | receive/test_mac.c:243-246 | row r of window i is select line r with byte i+r of the buffer |
| `Scroll.WindowsSlide` | receive/test_mac.c:243-246 | consecutive windows are the same picture moved by one row |
| `BlindReader.BlindReadGetsInk` | receive/test_mac.c:243-251 | noting the newest byte of every window that changed gives the lit bytes of the buffer, whatever the repetitions |
| `BlindReader.CoreDecides` | receive/test_mac.c:212-540 | reports that agree up to blanks are of one kind and say the same |
| `FontInk.FontHasInk` | receive/test_mac.c:45-63 | every glyph begins with an unlit row and no glyph's lit bytes begin another's |
| `Scroll.RecoverBuffer` | receive/test_mac.c:243-251 | the whole buffer can be rebuilt from the rows shown |
| `Scroll.ScrollBuffer` | receive/test_mac.c:243-251 | the loop writes exactly the m-7 windows, every byte read inside the buffer |

## Left out

- `Machine.Next`: the threads and main share state, so the machine is a value that steps replace, not objects that methods update; aliasing of the shared C variables is not captured. The drivers and loops it is made of are classes and methods.
- `MachineRuns.ThreadsStop`: bounds steps, not time, and takes the number of extra poll scans as a parameter because the kernel's timeout is not modelled.
- `Led.LedDriver.Write`: inputs above 18 index past the driver's tables and are not part of the model.
- `FunctionSelect.SetupCommutes`: each open is one step there; only the two sensor opens that share a word are modelled access by access, in `ConcurrentOpen`.
- `KeyEvents.KeyDriver.Handler`: the flag is unbounded, the source's is an `int`; the counters of coins likewise, except where a report computes with them.
- Events a key driver saw before main opens it, and keys 3 and 4 whose edge bits do not match their pins: every interrupt is possible at any time.
- A sensor thread's poll that fails, and a `pthread_create` that fails: their results are not looked at by the source.
- `MachineLiveness.CanSwitchOff`: some continuation does it; that a fair scheduler always does is not claimed, and cannot hold without a press of key 1.
- How an eye merges the rows of the multiplexed display into one picture: the viewer of the model sees every row of every showing.
- Real time: `udelay`, `mdelay`, `clock()`, `sleep` and poll timeouts.
- Module init and exit, `register_chrdev`, `ioremap`, `request_irq`, `copy_from_user`, `copy_to_user`, wait queues, console output and error returns of these calls.
- Release functions and closing the devices.
- `svm_driver.c`, `threadc`, `test_thr.c`: fixed delay sequences and code with undeclared names.
- `code/`, `aaaa/` and the other copies of these drivers; Makefiles and generated files.
