# Alvik remote controller, modelled in Dafny

The system has two MicroPython scripts joined by Bluetooth Low Energy.

- **The controller** (`remote_controller/imu_controller_ble.py`) runs on a hand-held board.
  - It scales accelerometer tilt by 100 and drops small values (a dead zone).
  - It writes y as speed and x as steering, each as two little-endian bytes, to two BLE characteristics.
  - It writes a push button's state (1 when pressed) to a horn characteristic and mirrors it on an LED.
- **The robot** (`alvik/alvik_remotely_controlled_ble.py`) starts braked, with its left LED red.
  - It scans for the controller by exact name, connects, and polls horn, speed and steering in turn.
  - It decodes each value as a signed 16-bit little-endian integer.
  - It mixes speed and steering into left and right wheel speeds.
  - A horn value of 1 raises the `is_playing` flag. The horn task then plays the `pacman` melody and lowers the flag.
  - A `TimeoutError` on the link turns the LED red and brakes.
- **A stand-alone tune player** (`alvik/play_tune.py`) plays the same melody with its own dotted-note factor.

The model has eight modules.

- `Wrappers`: `Option`, standing for Python's `None`, and sequence associativity.
- `Numeric`: exact `abs()` and `int()`. `int()` truncates toward zero.
- `Wire`: the byte codec shared by both scripts.
- `Controller`: normalization, the button and tilt passes, and a `Remote` class whose step and loop methods append writes to a log.
- `Melodies`: the `pacman` constant.
- `Tune`: `play_tune.py`.
- `Robot`: the mixer, discovery, the poll loop with its `TimeoutError` handler, the horn's copy of the tune player, and an `Alvik` class.
  - The class holds `is_playing` and a log of hardware events.
  - It has methods for reads, poll iterations, the poll loop, `speed_task`, `main` and the horn task.
- `System`: the two scripts together.

How the outside world is modelled:

- Everything the BLE link, the sensors and the clock supply is a parameter.
  - A scan is a sequence of `(name, device)` results.
  - A connection is whether `connect()` and the characteristic lookup time out, plus a finite script of rounds.
  - In each round, each of the three reads delivers a payload, raises `TimeoutError` or raises another error.
  - When the script of rounds runs out, `is_connected()` has returned false.
- Every call into the motors, LEDs or buzzer is an event appended to a log.
- Python floats are exact `real`s. `int()` is `Numeric.Trunc`.

## Model

| member | source | states |
|---|---|---|
| Numeric.Trunc | alvik/play_tune.py:5 | `int(x)` is the integer part, rounding toward zero for both signs |
| Numeric.TruncOdd | alvik/alvik_remotely_controlled_ble.py:136 | truncation commutes with negation, so `-1 * int(w / d)` for negative d is `int(w / -d)` |
| Numeric.TruncOfInt | remote_controller/imu_controller_ble.py:84 | `int()` of an integer is that integer |
| Numeric.Abs | remote_controller/imu_controller_ble.py:90 | `abs` is non-negative and equals x or -x |
| Wire.ToBytes2 | remote_controller/imu_controller_ble.py:84 | under the firmware assumption stated for it below, `to_bytes(2, 'little')` yields two bytes whose little-endian value is v mod 65536 |
| Wire.EncodeData | remote_controller/imu_controller_ble.py:83-84 | `_encode_data` yields exactly two bytes holding `int(x)` modulo 65536 |
| Wire.EncodeUnsigned | remote_controller/imu_controller_ble.py:84 | for 0 ≤ v < 65536 the bytes are `v mod 256` then `v div 256` |
| Wire.EncodeTruncates | remote_controller/imu_controller_ble.py:84 | encode(x) == encode(int(x)) |
| Wire.Signed16 | alvik/alvik_remotely_controlled_ble.py:42 | reading 16 bits as signed gives the int16 value congruent to the unsigned reading |
| Wire.Wrap16 | remote_controller/imu_controller_ble.py:84 | wraps any integer to the int16 value with the same low 16 bits |
| Wire.Unsigned | alvik/alvik_remotely_controlled_ble.py:42 | the little-endian value of two bytes lies in [0, 65536) |
| Wire.Decode | alvik/alvik_remotely_controlled_ble.py:38-46 | `_decode_data` returns a value exactly when the payload is present and two bytes long; that value is an int16 congruent to the bytes' unsigned reading. `None` input and wrong lengths give `None` |
| Wire.DecodePair | alvik/alvik_remotely_controlled_ble.py:42 | `[b0, b1]` decodes to `b0 + 256·b1` if b1 < 128, otherwise `b0 + 256·b1 − 65536` |
| Wire.Int16Unique | alvik/alvik_remotely_controlled_ble.py:42 | two int16 values with equal low 16 bits are equal |
| Wire.DecodeEncode | alvik/alvik_remotely_controlled_ble.py:42 | decoding what the controller wrote for x gives `int(x)` wrapped to int16 |
| Wire.RoundTrip | alvik/alvik_remotely_controlled_ble.py:42 | decode(encode(v)) == v for every int16 v, which includes 0 ≤ v ≤ 32767 |
| Wire.EncodeDecode | alvik/alvik_remotely_controlled_ble.py:42 | re-encoding a decoded two-byte payload reproduces it |
| Controller.NormalizeAccel | remote_controller/imu_controller_ble.py:88-92 | the result is 100·a when \|100·a\| > 5 and 0 otherwise |
| Controller.DeadZone | remote_controller/imu_controller_ble.py:88-92 | the result is 0 or has magnitude above 5 |
| Controller.NormalizeOdd | remote_controller/imu_controller_ble.py:88-92 | normalize(−a) == −normalize(a); a non-zero result has the sign of a |
| Controller.HornValue | remote_controller/imu_controller_ble.py:99-105 | the horn value is 0 or 1, and 1 exactly when the pull-up pin reads 0 |
| Controller.ButtonHorn | remote_controller/imu_controller_ble.py:97-105 | a button pass sets the LED and then writes the horn channel; the horn decodes to the LED value, 1 iff pressed, 0 iff not |
| Controller.SpeedChannels | remote_controller/imu_controller_ble.py:115-119 | a tilt pass writes speed (from y) and then steering (from x); each decodes to the truncated, wrapped normalized value |
| Controller.SmallTiltArrivesExactly | remote_controller/imu_controller_ble.py:116-119 | for a tilt of at most 327 the robot reads exactly `int(normalize_accel(a))` |
| Controller.Remote.constructor | remote_controller/imu_controller_ble.py:40-42 | LED at 0, nothing written yet |
| Controller.Remote.ButtonStep | remote_controller/imu_controller_ble.py:99-105 | the LED pin becomes the horn value; the log gains the LED level and the horn write |
| Controller.Remote.SpeedStep | remote_controller/imu_controller_ble.py:115-119 | the log gains the speed write and then the steering write |
| Controller.Remote.ButtonTask | remote_controller/imu_controller_ble.py:97-108 | the log gains every pass's writes in order; the LED shows the last reading's horn value |
| Controller.Remote.SpeedTask | remote_controller/imu_controller_ble.py:112-121 | the log gains every sample's two writes in order |
| Melodies.PacmanLength | alvik/melodies.py:4-39 | `pacman` has 31 entries |
| Melodies.PacmanDividers | alvik/melodies.py:5-38 | every divider is 8, 16, 32 or −16, so none is 0 |
| Melodies.PacmanDotted | alvik/melodies.py:10-26 | exactly entries 5, 12 and 19 are dotted, each −16 |
| Melodies.DividersSlice | alvik/melodies.py:4-39 | taking dividers commutes with slicing |
| Melodies.PacmanRhythm | alvik/melodies.py:5-38 | the dividers are the phrase pattern three times, then eight 32nds, 16 and 8 |
| Melodies.PacmanPhrases | alvik/melodies.py:5-27 | the first three phrases share the pattern 16,16,16,16,32,−16,8 |
| Melodies.PacmanRepeat | alvik/melodies.py:5-27 | phrase 3 (14-20) repeats phrase 1 (0-6) note for note |
| Tune.WholenoteValue | alvik/play_tune.py:4-5 | `wholenote == 2526` |
| Tune.DurationFloor | alvik/play_tune.py:51-55 | a divider d sets `2526 div \|d\|`, stretched by the dotted factor when d < 0; never negative |
| Tune.FloorOfQuotient | alvik/play_tune.py:52 | `int(a / b)` for naturals is a div b |
| Tune.DottedPositive | alvik/play_tune.py:53-55 | a dotted duration is positive exactly when \|d\| ≤ wholenote |
| Tune.DurationExamples | alvik/play_tune.py:51-55 | 8→315, 16→157, 32→78, −16→235.5; with the robot's 1.25, −16→196.25 |
| Tune.EntryFits | alvik/play_tune.py:57-58 | note time + rest time ≤ duration, losing less than 2 ms; both are non-negative |
| Tune.AlternatesCons | alvik/play_tune.py:57-58 | one more entry's note and rest in front keeps note/rest alternation in melody order |
| Tune.ScheduleShape | alvik/play_tune.py:50-58 | the calls alternate note and rest in melody order, two per entry, and number 2·n when the loop completes |
| Tune.ScheduleNonNegative | alvik/play_tune.py:57-58 | every call's time is non-negative |
| Tune.KnownDurationCompletes | alvik/play_tune.py:50-58 | once `noteDuration` is bound the loop always finishes |
| Tune.CompletesIff | alvik/play_tune.py:50-58 | as written the loop finishes iff the melody is empty or its first divider is non-zero |
| Tune.StartIrrelevant | alvik/play_tune.py:50-55 | if the first divider is non-zero, the starting duration does not matter |
| Tune.LeadingZeroDividerFails | alvik/play_tune.py:8-58 | as written, `[(B4, 0)]` makes no call and does not finish |
| Tune.LeadingZeroDividerIntended | alvik/play_tune.py:8 | starting from `noteDuration = 0`, the same melody plays a 0 ms note and a 0 ms rest |
| Tune.IntendedSchedule | alvik/play_tune.py:8-58 | the intended player finishes every melody with 2·n calls, note and rest alternating in melody order |
| Tune.IntendedAgrees | alvik/play_tune.py:8-58 | the intended player and the written one agree exactly when the first divider is non-zero or there is none |
| Tune.PlayTune | alvik/play_tune.py:50-58 | the loop's calls and its outcome are the schedule, from an unbound `noteDuration` |
| Tune.EmbeddedIsPacman | alvik/play_tune.py:13-47 | the embedded melody equals `pacman` entry for entry |
| Tune.EmbeddedPlaysFully | alvik/play_tune.py:13-58 | the embedded melody plays all 62 calls as intended, in order |
| Robot.MixIdentities | alvik/alvik_remotely_controlled_ble.py:109-110 | left + right = 1.4·s; left − right = 1.4·s·d/100; d = 0 gives equal wheels; s = 0 gives 0, 0 |
| Robot.MixSteersRight | alvik/alvik_remotely_controlled_ble.py:109-110 | driving forward, positive steering makes left > right, negative makes left < right |
| Robot.MixExamples | alvik/alvik_remotely_controlled_ble.py:109-110 | (100,0)→(70,70), (100,±50)→(105,35)/(35,105), (200,25)→(175,105), (0,50)→(0,0) |
| Robot.FindTxDevice | alvik/alvik_remotely_controlled_ble.py:51-57 | `None` iff no result is named exactly `ALVIK_REMOTE_CONTROLLER`; otherwise the device of the first result that is |
| Robot.Discover | alvik/alvik_remotely_controlled_ble.py:73-77 | the device of the first scan that finds the controller, `None` iff none does |
| Robot.FindController | alvik/alvik_remotely_controlled_ble.py:73-77 | the rescan loop returns what `Discover` specifies |
| Robot.LoopAt | alvik/alvik_remotely_controlled_ble.py:93-113 | the loop from iteration i is that iteration, then the rest unless it raised |
| Robot.RoundApplies | alvik/alvik_remotely_controlled_ble.py:93-113 | an iteration completes iff no read raises and the speed and steering payloads decode (an undecodable horn value only leaves the flag alone); it then logs green LED, horn, speed, steering and the mixed wheel speeds. A raising iteration sets no wheels. No iteration brakes or turns red. It raises `TimeoutError` exactly when the first failing read timed out |
| Robot.UndecodableHornDrives | alvik/alvik_remotely_controlled_ble.py:96-113 | a missing or malformed horn payload gives `None`, which is not 1: the flag stays as it was and the wheels are still set to the mix |
| Robot.RoundFlag | alvik/alvik_remotely_controlled_ble.py:96-100 | the flag after an iteration is the flag before, or else whether the horn decoded to 1 |
| Robot.RaisedIgnoresFlag | alvik/alvik_remotely_controlled_ble.py:96-113 | whether an iteration raises does not depend on the `is_playing` flag it starts with |
| Robot.LoopEnds | alvik/alvik_remotely_controlled_ble.py:93-113 | the loop ends without an exception only after every round, each completing; otherwise the last iteration entered raised that exception |
| Robot.LoopNeverBrakes | alvik/alvik_remotely_controlled_ble.py:93-113 | the poll loop never brakes or turns the LED red |
| Robot.TaskFailStop | alvik/alvik_remotely_controlled_ble.py:69-119 | `speed_task` brakes, and turns red, iff it ends in the `TimeoutError` handler; then red and brake are its last two events |
| Robot.LoopOrder | alvik/alvik_remotely_controlled_ble.py:93-113 | every wheel command follows the green LED and the horn, speed and steering reads, in that order |
| Robot.WheelsAfterPrefix | alvik/alvik_remotely_controlled_ble.py:147-150 | events without wheel commands in front keep that order |
| Robot.WheelsAfterSuffix | alvik/alvik_remotely_controlled_ble.py:117-118 | events without wheel commands behind keep that order |
| Robot.TaskOrder | alvik/alvik_remotely_controlled_ble.py:69-119 | the same ordering holds for a whole `speed_task` |
| Robot.LoopFlag | alvik/alvik_remotely_controlled_ble.py:93-100 | the flag ends raised iff it started raised or an iteration entered read a horn of 1; the loop never clears it |
| Robot.DropAfterDriving | alvik/alvik_remotely_controlled_ble.py:93-119 | speed 200 and steering 25 set wheels (175, 105); a timed-out speed read then ends with red LED and brake |
| Robot.PlaysInOrderCons | alvik/alvik_remotely_controlled_ble.py:139-143 | one more entry's four events in front keep the melody order |
| Robot.HornTuneShape | alvik/alvik_remotely_controlled_ble.py:131-143 | four events per entry, in melody order: note tone, pause, rest tone, pause |
| Robot.ZeroDividerReuses | alvik/alvik_remotely_controlled_ble.py:128-137 | a zero divider reuses the previous duration |
| Robot.HornEntryFits | alvik/alvik_remotely_controlled_ble.py:129-143 | every duration is non-negative, and the note and rest pauses fit inside it |
| Robot.HornPlaysPacman | alvik/alvik_remotely_controlled_ble.py:131-143 | `pacman` plays as 124 events; a dotted sixteenth lasts 196.25 ms |
| Robot.Alvik.constructor | alvik/alvik_remotely_controlled_ble.py:35 | `is_playing` starts false, nothing logged, the horn melody is `pacman` |
| Robot.Alvik.ReadChannel | alvik/alvik_remotely_controlled_ble.py:96-107 | a read is logged; it yields the decoded payload or raises the outcome's exception |
| Robot.Alvik.PollOnce | alvik/alvik_remotely_controlled_ble.py:94-113 | log, flag and exception are those of `PollRound` |
| Robot.Alvik.PollLoop | alvik/alvik_remotely_controlled_ble.py:93-113 | log, flag and exception are those of `Loop` |
| Robot.Alvik.FailSafe | alvik/alvik_remotely_controlled_ble.py:117-118 | the log gains the red LED and then the brake |
| Robot.Alvik.SpeedTask | alvik/alvik_remotely_controlled_ble.py:69-119 | log, flag and end are those of `SpeedTaskRun` |
| Robot.Alvik.Launch | alvik/alvik_remotely_controlled_ble.py:146-153 | brake, then red LED, then `speed_task` |
| Robot.Alvik.PlayTune | alvik/alvik_remotely_controlled_ble.py:123-143 | the loop, carrying `noteDuration` from 0, logs `HornTune(melody, 0)` |
| Robot.Alvik.HornStep | alvik/alvik_remotely_controlled_ble.py:59-66 | with the flag up, the whole melody plays and only then is the flag cleared; with it down nothing is logged; the flag ends down |
| Robot.LaunchSafe | alvik/alvik_remotely_controlled_ble.py:146-153 | the robot's log opens with brake and red LED, and every wheel command follows its own reads |
| System.ControllerDrivesRobot | alvik/alvik_remotely_controlled_ble.py:93-113 | reading one button pass and one tilt pass (tilt ≤ 327), an iteration sets the wheels to the mix of `int(norm(y))` and `int(norm(x))`, raising the flag iff pressed or already up |
| System.LevelControllerStops | remote_controller/imu_controller_ble.py:88-92 | both axes inside the dead zone make the robot set both wheels to 0 |
| System.FindsController | alvik/alvik_remotely_controlled_ble.py:55-56 | the names in the two scripts agree, so the controller's advertisement after any others is the one found |

## Left out

- **BLE transport.** Advertising, scanning, connecting, service lookup, UUIDs, `aioble` and the controller's `peripheral_task` are not modelled. Their effects are scripted parameters.
- **The controller's LED characteristic.** It is declared and never used, so it is absent.
- **Concurrency and timing.** `asyncio` task creation, `gather` and every `sleep_ms`/`sleep` are left out.
  - The two robot tasks are methods on one shared object. Their interleaving is not modelled.
  - Each script's endless loop is a loop over a finite script of inputs.
  - The robot's horn pauses are kept as `Pause(ms)` events, because their lengths are what `play_tune` computes.
- **Hardware drivers.** The accelerometer, pins, I2C, buzzer, motors and LEDs are left out.
  - A sample and a pin reading are parameters. Actuations are log events.
  - Notes are abstract names, because the buzzer's pitch table is not part of this model.
  - The controller's LED pin is taken to start at 0.
- **IEEE-754 floats.** `0.7`, `0.9`, `0.1`, `1.25`, `1.5` and the divisions are exact reals. Binary rounding is not modelled.
- Wire.ToBytes2: assumes the controller's firmware keeps the low two bytes (two's complement) of any integer. This matters because every backward or left tilt sends a negative value. CPython raises `OverflowError` for v < 0 or v ≥ 65536, and so may other MicroPython versions; under that behaviour the controller's `speed_task` would end with an uncaught error at the first such write, which the model does not capture.
- Wire.Decode: requires exactly two bytes, as CPython's `struct.unpack` does. MicroPython's `ustruct` also takes longer buffers and reads their first two bytes.
- Tune.PlayTune: takes the melody as a parameter. The script's `play_tune(tune_function)` plays a list literal defined inside itself; `Tune.Embedded` is that literal, and `Tune.EmbeddedPlaysFully` covers what the script actually plays.
- **Printing.** `print` logging and the unused `global led_on` are left out.
- **Discovery.** A scan's results are given whole. The 5-second scan window and its parameters are not modelled. The 2 s pause between rescans is not modelled either.
- **Flag clearing.** The horn task's clear is modelled only in sequence after the tune (`Robot.Alvik.HornStep`). A horn read of 1 that arrives while the tune plays is lost when the flag is cleared. The model does not show this, because tasks are not interleaved.

## Findings

| source | as written | input that shows it | evidently intended | confidence | as-written member | corrected member |
|---|---|---|---|---|---|---|
| alvik/play_tune.py:8-58 | `noteDuration` is assigned inside `play_tune`, so it is local there and the module-level `noteDuration = 0` (line 8) is shadowed. An entry with divider 0 before any non-zero one reads it unbound at line 57 and raises `NameError` on MicroPython (`UnboundLocalError` on CPython), before any call for that entry. | the literal `melody` inside `play_tune` (lines 13-48, equal to `pacman`) edited to open with `(B4, 0)`; as shipped the literal has no zero divider | start from `noteDuration = 0`, as the robot's own copy of the player does (alvik/alvik_remotely_controlled_ble.py:129) | not executed; latent, reachable only by editing the literal | Tune.LeadingZeroDividerFails | Tune.IntendedSchedule |
