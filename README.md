# RFzero WSPR beacon: configuration console and reconciler

This project models the configuration core of the RFzero "Beacon WSPR" firmware. The console
starts in run mode. There it accepts only `config` and `help`/`?`. In configuration mode it
matches each trimmed line against a fixed list of case-sensitive prefixes (`exit`, `wr frst`,
`wr hw`, `wr warmup`, `wr echo`, `wr defaults`, `wr freq`, `wr cal`, `wr txdly`, `wr bcn`,
`wr loc`, `wr pwr`, `rd fref`, `rd cfg`, `help`/`?`). It then validates the arguments and
writes the EEPROM.

Every successful write sets the dirty bit `configChanged`. On `exit`, the GPS echo is restored
from the store. If the bit is set, `LoadConfiguration` runs: it reloads every runtime global from
the EEPROM and repairs an out-of-range beacon frequency and an illegal WSPR power level, both in
memory and in the store. It sets the WSPR modulation up again, and it retunes only when the
frequency really changed.

The modules follow the firmware's files:

- `CLib` holds the C semantics the code relies on: `uint8_t` conversion, the truncating `%`,
  and `toupper`.
- `Store` is the EEPROM. It is an `Eeprom` class over a map from field address to a typed cell,
  with `readByte`/`readInteger`/`readDouble` returning the caller's default for a missing cell.
- `AddressMap` is `config.h`.
- `Globals` is `global.cpp`. It provides the `Runtime` class of globals, with a ghost log of
  driver calls.
- `Config` is `config.cpp`. The pure `Reconcile` function specifies the imperative
  `LoadConfiguration` method.
- `Commands` is `commands.cpp`. The pure `Step` function specifies the imperative
  `Console.ParseCommand` method.
- `CommandProperties` holds the lemmas about `Step`.

Three routines use their own defaults for a missing value, and the model keeps them apart as the
code does:

| routine | calibration interval | TX interval |
|---|---|---|
| `rd cfg` shows | 15 | 4 |
| `LoadConfiguration` loads | 5 | 4 |
| `wr defaults` writes | 5 | 2 |

`CommandProperties.DefaultsDifferByRoutine` states all three.

The `help` text announces 2 to 59 minutes for `wr txdly`. The code accepts 1 to 255, and the
model follows the code (`CommandProperties.TxDelayCommand`). `wr freq` accepts any frequency from
100 kHz up, but the reconciler replaces anything above 298.765432 MHz.
`CommandProperties.HighFrequencyHealedOnExit` states that combination.

## Model

| member | source | states |
|---|---|---|
| CLib.ToByte | WSPR/commands.cpp:242 | the `int` that `toupper` returns, passed to `writeByte` as a `uint8_t`, is the value itself when it fits a byte, and is congruent to it modulo 256 otherwise |
| CLib.Rem | WSPR/commands.cpp:296 | C's `%` for a positive divisor: the remainder has the dividend's sign and lies strictly between -b and b |
| CLib.RemTenDivides | WSPR/commands.cpp:296 | C's `x % 10 == 0` holds exactly when 10 divides x, including for negative x |
| CLib.ToUpper | WSPR/commands.cpp:242 | `toupper` changes exactly the lower-case letters, sends each to its capital, and never returns a lower-case letter |
| Store.Range | WSPR/commands.cpp:238-248 | the addresses covered by a text field are exactly base to base + n - 1 |
| Store.PutTextReadBack | WSPR/commands.cpp:238-248 | after writing a text byte by byte, every byte reads back as written, whatever the read's default |
| Store.PutTextFrame | WSPR/commands.cpp:238-248 | writing a text changes no cell outside the text's addresses |
| Store.Eeprom.WriteByte | WSPR/commands.cpp:97 | `writeByte` sets the one cell at the address to that byte and changes no other |
| Store.Eeprom.WriteInteger | WSPR/commands.cpp:78 | `writeInteger` sets the one cell at the address to that integer and changes no other |
| Store.Eeprom.WriteDouble | WSPR/commands.cpp:182 | `writeDouble` sets the one cell at the address to that double and changes no other |
| AddressMap.OrderedIsDisjoint | WSPR/config.h:9-31 | a map in which each field ends before the next begins has no two overlapping fields |
| AddressMap.LayoutIsDisjoint | WSPR/config.h:9-31 | no two fields of the EEPROM map share a byte; for example the 16-byte call ends exactly where the message field begins |
| Globals.Blank | WSPR/global.cpp:30-31 | the power-on call and locator buffers are spaces closed by a NUL in their last byte |
| Globals.InitialValues | WSPR/global.cpp:9-34 | the power-on globals: display 0, warm-up 0, echo 0, frequency 0.0, calibration interval -1, power 13, blank call and locator |
| Globals.Runtime.constructor | WSPR/global.cpp:9-34 | a fresh set of globals holds the power-on values, and no driver has been called yet |
| Config.PowerLegalSteps | WSPR/config.cpp:54 | the reconciler's power test passes exactly the levels 0 to 60 whose last digit is 0, 3 or 7 |
| Config.Reconcile | WSPR/config.cpp:7-68 | after reconciling, the frequency is in range, the power is legal, and call and locator are NUL-terminated at their fixed sizes |
| Config.LoadText | WSPR/config.cpp:26-28 | the buffer receives the stored bytes (default '.') with the last byte forced to NUL |
| Config.LoadBeacon | WSPR/config.cpp:32-49 | frequency (repaired and persisted), calibration interval with counter reset, call and TX interval are loaded as `Reconcile` says |
| Config.LoadPowerLevel | WSPR/config.cpp:53-58 | the power is loaded and an illegal level is replaced by 13 in memory and in the store |
| Config.LoadConfiguration | WSPR/config.cpp:7-68 | the new globals, the new store and the driver calls made are exactly those `Reconcile` gives for the old globals and store |
| Config.ReconcileFrequency | WSPR/config.cpp:32-37 | a stored frequency outside [100 kHz, 298.765432 MHz] becomes 28.555 MHz in the runtime and in the store; one inside it is kept and left unwritten |
| Config.ReconcileCalibration | WSPR/config.cpp:38-40 | the calibration counter is forced to 2 exactly when the interval read differs from the one before |
| Config.ReconcileInterval | WSPR/config.cpp:46-49 | the TX interval is forced to 2 only if it changed and is outside 2 to 59; it is never written back |
| Config.ReconcilePower | WSPR/config.cpp:53-58 | an illegal stored power becomes 13 in the runtime and in the store; a legal one is kept |
| Config.ReconcileText | WSPR/config.cpp:26-44 | every call and locator byte but the last is the stored byte, with '.' for a byte never written |
| Config.ReconcilePlainFields | WSPR/config.cpp:17-22 | display mode, warm-up and GPS echo are read as they are, with defaults 1, 0 and 0 |
| Config.ReconcileEvents | WSPR/config.cpp:15-16 | T1 is set first and the modulation set-up comes second, once only; tones are recalculated and the carrier recentred exactly when the frequency changed |
| Config.ReconcileWritesOnlyRepairs | WSPR/config.cpp:36 | the reconciler writes no cell but the frequency and the power |
| Config.ReconcileLeavesStoreValid | WSPR/config.cpp:32-58 | afterwards the store holds a frequency and a power level the reconciler itself accepts |
| Config.ReconcileIdempotent | WSPR/config.cpp:7-68 | a second reconcile with no store change in between changes no global and no cell, and it makes no retune |
| Config.FirstLoadForcesRecalibration | WSPR/global.cpp:28 | since the power-on calibration interval is -1, the first load always forces a recalibration |
| Config.FirstLoadRetunes | WSPR/global.cpp:27 | since the power-on frequency is 0.0, the first load always recalculates the tones |
| Config.LowFrequencyRepaired | WSPR/config.cpp:33-37 | a store holding 50 Hz is healed to 28.555 MHz, and the healed state is stable |
| Commands.WritePadded | WSPR/commands.cpp:238-248 | the loop writes the upper-cased word, then NULs, over the whole field in address order |
| Commands.RunSetByte | WSPR/commands.cpp:111-126 | a one-integer byte setting is written exactly when scanned and in range; the status is OK or "Invalid data" |
| Commands.RunSetText | WSPR/commands.cpp:232-258 | a word shorter than the field is written padded with a NUL hard stop; otherwise nothing is written |
| Commands.RunCommand | WSPR/commands.cpp:70-401 | each configuration command's status and store writes are as `Execute` defines |
| Commands.Console.constructor | WSPR/commands.cpp:11-12 | the console starts in run mode with a clean dirty bit |
| Commands.Console.ParseCommand | WSPR/commands.cpp:14-419 | mode, dirty bit, globals, store, status, report and driver calls follow `Step`; the dirty bit is never set in run mode; the prompt shows the mode after the command |
| CommandProperties.ClassifyByPrefix | WSPR/commands.cpp:55-371 | a configuration line is taken as a command exactly when it starts with that command's literal; no literal prefixes another, so the order of the tests does not matter |
| CommandProperties.ClassifyNoMatch | WSPR/commands.cpp:55-371 | a line is an unknown command exactly when it starts with no literal |
| CommandProperties.SelectsOne | WSPR/commands.cpp:55-371 | no line starts with the literals of two different commands |
| CommandProperties.RunModeCommands | WSPR/commands.cpp:31-49 | in run mode only `config` changes state (mode on, GPS echo off); `help`/`?` answer OK; everything else is unknown and changes nothing |
| CommandProperties.ExitCommand | WSPR/commands.cpp:55-67 | `exit` returns to run mode, restores the GPS echo from the store, and reconciles exactly when the dirty bit was set |
| CommandProperties.StepKeepsConsistent | WSPR/commands.cpp:11-12 | no command leaves the dirty bit set outside configuration mode |
| CommandProperties.DirtyBit | WSPR/commands.cpp:61-65 | the dirty bit is cleared only by `exit` and set only by a command answering OK; drivers are called only by `exit` with the bit set |
| CommandProperties.RunKeepsConsistent | WSPR/commands.cpp:11-12 | from any consistent session, every sequence of commands keeps the dirty bit confined to configuration mode |
| CommandProperties.RefusalChangesNothing | WSPR/commands.cpp:405-413 | a command answering unknown, invalid data, invalid frequency or invalid level changes nothing |
| CommandProperties.StatusLine | WSPR/commands.cpp:405-413 | a status line is printed exactly for non-empty lines other than `exit`, `rd fref`, `rd cfg` and `help` in configuration mode |
| CommandProperties.ReadCommands | WSPR/commands.cpp:311-401 | only `rd cfg` produces a report, of the store as it is; the read commands change nothing |
| CommandProperties.RefStartCommand | WSPR/commands.cpp:72-87 | `wr frst` writes only the reference start frequency, within 10 kHz of 27 MHz; else "Invalid frequency", or "Invalid data" if no integer was scanned |
| CommandProperties.HardwareCommand | WSPR/commands.cpp:91-107 | `wr hw` writes T1 (0 to 2) and display mode (0 to 4) together or not at all |
| CommandProperties.WarmUpCommand | WSPR/commands.cpp:111-126 | `wr warmup` accepts 0 to 255 and writes only the warm-up cell |
| CommandProperties.EchoCommand | WSPR/commands.cpp:131-146 | `wr echo` accepts 0 or 1 and writes only the echo cell |
| CommandProperties.FrequencyCommand | WSPR/commands.cpp:175-191 | `wr freq` writes any frequency from 100 kHz up; below that "Invalid frequency"; without a word "Invalid data" |
| CommandProperties.CalibrationCommand | WSPR/commands.cpp:195-210 | `wr cal` accepts 1 to 255 and writes only the calibration interval |
| CommandProperties.TxDelayCommand | WSPR/commands.cpp:213-228 | `wr txdly` accepts 1 to 255 (not the 2 to 59 of the help text) and writes only the TX interval |
| CommandProperties.PowerSteps | WSPR/commands.cpp:296 | the power test accepts exactly 0, 3, 7, 10, 13, 17, ... 57, 60 dBm |
| CommandProperties.PowerTestsAgree | WSPR/config.cpp:54 | the command's power test and the reconciler's accept the same levels |
| CommandProperties.PowerCommand | WSPR/commands.cpp:292-307 | `wr pwr` writes only the power, exactly when the level is 0 to 60 with last digit 0, 3 or 7 |
| CommandProperties.PowerExamples | WSPR/commands.cpp:296 | 23 dBm is accepted and 24 dBm refused |
| CommandProperties.UpperByteNonZero | WSPR/commands.cpp:242 | upper-casing never turns a byte into NUL |
| CommandProperties.PaddedReadsAsWord | WSPR/commands.cpp:236-249 | a stored word shorter than its field reads back, as a C string, as the upper-cased word |
| CommandProperties.SetTextWrites | WSPR/commands.cpp:236-251 | a text command stores the padded word, NUL last, and writes nothing outside the field |
| CommandProperties.CallCommand | WSPR/commands.cpp:232-258 | `wr bcn` accepts at most 15 bytes and stores them upper-cased and NUL-padded over all 16 cells, and nothing else |
| CommandProperties.LocatorCommand | WSPR/commands.cpp:262-288 | `wr loc` accepts at most 8 bytes and stores them upper-cased and NUL-padded over all 9 cells, and nothing else |
| CommandProperties.ReadTextAgree | WSPR/config.cpp:42-43 | two stores that agree on a text field read back the same text |
| CommandProperties.StoredCallLoaded | WSPR/config.cpp:42-60 | a NUL-terminated stored call is the call the reconciler loads and sets the modulation up with |
| CommandProperties.CallReachesBeacon | WSPR/commands.cpp:232-258 | a call accepted by `wr bcn` is, after `exit`, the beacon's call and the call given to the modulation set-up |
| CommandProperties.DefaultsCommand | WSPR/commands.cpp:151-171 | `wr defaults` writes the eight defaults (27 MHz, T1 0, display 1, warm-up 0, echo 0, calibration 5, interval 2, power 13) and no other cell |
| CommandProperties.DefaultsKeepIdentity | WSPR/commands.cpp:151-171 | `wr defaults` leaves the frequency, the call and the locator as they were |
| CommandProperties.DefaultsThenReport | WSPR/commands.cpp:328-362 | `rd cfg` after `wr defaults` lists those defaults and the identity unchanged |
| CommandProperties.DefaultsDifferByRoutine | WSPR/commands.cpp:347-349 | on an empty store `rd cfg` shows calibration 15 and interval 4, the reconciler loads 5 and 4, and `wr defaults` writes 5 and 2 |
| CommandProperties.ExecuteFootprint | WSPR/commands.cpp:72-307 | each configuration command writes only inside its footprint |
| CommandProperties.StoreFootprint | WSPR/commands.cpp:14-419 | no command writes outside its footprint, and nothing in run mode writes the store |
| CommandProperties.FootprintsDisjoint | WSPR/config.h:9-31 | two different single-field commands never write the same cell |
| CommandProperties.ConfigThenExit | WSPR/commands.cpp:33-67 | `config` followed at once by `exit` writes nothing, calls no driver, and only restores the GPS echo |
| CommandProperties.NewCalibrationForcesRecalibration | WSPR/commands.cpp:195-210 | a new calibration interval is live after `exit`, and a recalibration is due at once |
| CommandProperties.HighFrequencyHealedOnExit | WSPR/commands.cpp:175-191 | a frequency above 298.765432 MHz passes `wr freq`, but `exit` replaces it by 28.555 MHz in the runtime and in the store |
| CommandProperties.EchoTakesEffectOnExit | WSPR/commands.cpp:131-146 | `wr echo` is in effect after `exit` |

## Left out

- Console output is not modelled: the echoed line, the status texts, the prompts, the help text
  and the version banner (`PrintLibPrgVer`). The model returns the status, the mode the prompt
  shows, and for `rd cfg` the values listed.
- `TrimCharArray`, `sscanf` and `strtod` are not modelled. The line given to the model is the
  trimmed line. What the scans read is given as `Args`: the leading integers and the first word,
  with the number `strtod` makes of it.
- `rd fref`: the measured reference frequency (`freqCount.getReferenceFrequency`) needs the
  hardware. Only its status 99 is modelled.
- Hardware and modulation drivers (`rfOutputT1`, `setupWSPR`, `calculateTones`,
  `setCWCarrierTone`) are recorded as events in a ghost log, in call order. Their effect on the
  radio is not modelled.
- `ParseCommand` works on a fixed 80-byte buffer. A word of 80 or more characters would overflow
  it, which is undefined behaviour and not modelled.
- `int` and `double` are unbounded integers and reals in the model. Overflow of `%d`, and NaN,
  infinity and rounding in `strtod` and in the frequency comparisons, are not modelled.
- The `eeprom` object belongs to the RFzero library, which is not part of this model. The model
  assumes that a read returns the caller's default exactly when the cell was never written with
  the matching accessor.
- The EEPROM device's byte layout is not modelled. Each field is one typed cell at its start
  address, so reading a field with the wrong accessor gives the caller's default.
  `AddressMap.LayoutIsDisjoint` shows that in the real map no two fields overlap.
- The `Interval` global is defined outside the modelled files. Its power-on value is a parameter
  of `Globals.Initial` and `Globals.Runtime.constructor`.
- The remaining globals of `global.cpp` are not modelled because no modelled operation uses them:
  `displayAutoUpdate`, `esc`, `seqn`, `goodRTC`, `swPackage`, `swVersion`, and the `Modes`
  object beyond the events above.
- `EEPROM_GPS_Wait` and `EEPROM_BEACON_MGMMsg` appear only in the address map; no modelled
  operation reads or writes them.
