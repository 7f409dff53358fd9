# ADXL313 logger with ESP-NOW telemetry — a Dafny model

The firmware runs on an ESP32. At boot it synchronises its clock and names a
daily CSV log after the date. It creates that log with a header when the log
is missing, sends one test packet, then starts three FreeRTOS tasks:

- **Task1, the sampler**: whenever the ADXL313 has a reading, it copies the
  reading into a shared three-slot buffer. It formats the reading with the
  cached time and appends the line to the log. If the log cannot be opened,
  the task halts.
- **Task2, the schedule controller**: every tick it refreshes the cached time.
  - At 21:12:10 it suspends the sampler and the sender and puts the sensor in
    standby.
  - At 06:12:10 it resumes both tasks and turns measurement back on.
  - At 06:16:10 or 06:18:10 it restarts the device.
- **Task3, the telemetry sender**: it builds a packet with source id 11 from
  the shared buffer and broadcasts it.

The model has these modules:

- `Decimal`: `%d` text and the reader that inverts it.
- `Clock`: the six cached time globals and the update that copies a
  `struct tm` into them.
- `Csv`: the sample line, the header, the file name, the readers that take the
  line back to its values, and the fixed-size C buffers.
- `Storage`: the SD card, a map from file name to lines.
- `Telemetry`: the packet.
- `Schedule`: the controller's state machine on values.
- `Firmware`: the globals as the fields of the class `Logger`, with one method
  per task body and one per boot phase.

Each task's loop body is one atomic step on the shared state. Once a task has
been suspended, its step does nothing. After a restart, no step does anything.

On these points the model follows `main.c`:

- The three schedule checks are independent `if`s. `Schedule.OrderIrrelevant`
  proves they behave like a first-match chain, because the configured times
  are pairwise distinct.
- A failed ESP-NOW init or peer registration makes `setup` return early.
  Boot does not go on, so no task is launched (`RadioInitFailed`,
  `PeerAddFailed`).
- An open failure in the sampler calls the SD library's `errorHalt` from
  inside Task1. Only the sampler stops; the controller and the sender go on
  (`halted`).
- The file name starts with `/`, and its fields are not padded.
- The header is `Date,X,Y,Z,` with a trailing comma. `println` ends it with
  CR LF, whereas sample lines end with LF alone.

## Model

| member | source | states |
|---|---|---|
| Decimal.Digits | main.c:111-112 | the decimal digits of a non-negative number: at least one, all digits, a leading `0` only for zero, a single digit exactly below ten |
| Decimal.Text | main.c:111-112 | `%d` output: non-empty, starts with `-` exactly for negative numbers, digits after the first character |
| Decimal.Parse | main.c:111-112 | the firmware does not read text back; this is the independent reader against which `ParseText` checks the `%d` output of the `sprintf` calls. It accepts only non-empty text, and gives a negative result only after a leading `-` |
| Decimal.ParseText | main.c:111-112 | reading back `%d` output gives the printed integer, for every integer |
| Decimal.TextAvoids | main.c:111-112 | `%d` output never contains a separator, i.e. a character other than a digit or `-` |
| Clock.FromTm | main.c:90-95 | the copy of a `struct tm` into the six globals, with month + 1 and year + 1900; `TmRoundTrip` proves that it loses nothing |
| Clock.Refresh | main.c:86-96 | a failed clock read leaves the cache unchanged; a successful one replaces all six fields, with month + 1 and year + 1900 |
| Clock.TmRoundTrip | main.c:90-95 | the conversion from `struct tm` to the cached fields loses nothing, in both directions |
| Clock.RefreshIdempotent | main.c:86-96 | updating twice with the same reading equals updating once |
| Clock.RefreshAllKeepsLast | main.c:86-96 | trailing failed reads do not change the cache |
| Clock.LastGoodReading | main.c:86-96 | after a run of updates, the cache holds the last successful reading |
| Clock.ClockNeverAnswers | main.c:86-96 | a clock that never answers leaves the cache as it was |
| Csv.DateText | main.c:111 | the `%d/%d/%d %d:%d:%d` date text; `DateRoundTrip` reads it back as its stamp, and `DateFitsBuffer` bounds its width |
| Csv.Line | main.c:112 | the `%s,%d,%d,%d,\n` sample line; `LineRoundTrip` reads it back as its record; `LineOverflowsBuffer` and `LineFitsBuffer` bound its length |
| Csv.FileName | main.c:192 | the log name starts with `/test`, ends with `.csv`, and has at least 12 characters |
| Csv.FileNameCollides | main.c:192 | 2025/1/11 and 2025/11/1 give the same file name, so the naming is not injective |
| Csv.DateRoundTrip | main.c:111 | the date text reads back as the cached time it was formatted from |
| Csv.LineRoundTrip | main.c:111-112 | every sample line reads back as its time and three readings |
| Csv.Header | main.c:223-225 | the header: `%s,%s,%s,%s,` of Date, X, Y and Z, with a trailing comma, then the CR LF that `println` writes (sample lines end with LF alone); `HeaderIsNotRecord` shows it never reads as a sample line |
| Csv.HeaderIsNotRecord | main.c:223-225 | the header line does not read as a sample line |
| Csv.SplitJoin | main.c:112 | splitting comma-joined fields gives the fields back when none holds a comma |
| Csv.LineOverflowsBuffer | main.c:112 | with a four-digit year, the sample line is at least 22 characters and overflows the 20-byte `gpsDate` |
| Csv.LineOverflowExample | main.c:112 | the line for 2025/1/1 0:0:0 with readings 0,0,0 is `2025/1/1 0:0:0,0,0,0,\n` and does not fit in 20 bytes |
| Csv.LineFitsBuffer | main.c:49 | every line of plausible values fits in 43 bytes |
| Csv.DateFitsBuffer | main.c:111 | the date text of any in-range time fits the 20-byte `Date` buffer |
| Csv.NameAndHeaderFitBuffer | main.c:192 | the file name of any four-digit-year date and the header fit their 20-byte buffers |
| Storage.Append | main.c:114-118 | appending adds exactly the line at the end of the named file, creating the file if it is missing; every other file is unchanged |
| Storage.CreateIfMissing | main.c:220-227 | an existing log is left alone; a missing one is created with the header alone when creation succeeds; a failed creation is a halt |
| Storage.CreatedLogWellFormed | main.c:220-227 | a freshly created log is well formed: the header, then sample lines only |
| Storage.HeaderOnce | main.c:220-227 | in a well-formed log the header is exactly line 0 |
| Storage.AppendKeepsLog | main.c:114-118 | appending one sample line keeps a well-formed log well formed and adds exactly that line at its end |
| Storage.AppendAllKeepsLog | main.c:114-118 | appending any run of samples keeps the log well formed; it grows by one line per sample, keeps the old log as a prefix, and leaves other files alone |
| Telemetry.MakePacket | main.c:161-164 | the packet carries id 11 and exactly the three buffered readings |
| Telemetry.TestPacket | main.c:230 | the packet setup sends once before launching the tasks: id 11 and the readings 5, 5, 5 |
| Schedule.IsSuspendTime | main.c:132 | the suspend condition, 21:12:10 |
| Schedule.IsResumeTime | main.c:140 | the resume condition, 06:12:10 |
| Schedule.IsRestartTime | main.c:148-149 | the restart condition, 06:16:10 or 06:18:10 |
| Schedule.Tick | main.c:129-151 | one controller tick, with the three checks as independent `if`s in source order. `OrderIrrelevant` shows it equals a first-match chain, `TickKeepsCoupled` that it keeps the tasks and the sensor in step, and `RunAfterRestart` that nothing changes after a restart |
| Schedule.AtMostOneFires | main.c:132-149 | the suspend, resume and restart conditions are pairwise exclusive |
| Schedule.OrderIrrelevant | main.c:131-151 | running the independent checks in order equals running the first matching one |
| Schedule.SuspendIdempotent | main.c:132-137 | at 21:12:10 both tasks are suspended and the sensor is in standby; a second tick at the same time changes nothing |
| Schedule.ResumeIdempotent | main.c:140-145 | at 06:12:10 both tasks are active and the sensor measures; a second tick at the same time changes nothing |
| Schedule.TickElsewhere | main.c:129-151 | a tick at any other time changes nothing; a restart tick sets only the restart |
| Schedule.TickKeepsCoupled | main.c:131-145 | each tick keeps the sampler and the sender in the same state, with the sensor in standby exactly when they are suspended |
| Schedule.RunKeepsCoupled | main.c:124-155 | any run of ticks keeps that coupling |
| Schedule.RunAfterRestart | main.c:148-151 | after a restart, no tick changes anything |
| Schedule.RunReachesRestart | main.c:148-151 | a run that passes through a restart time ends restarted |
| Schedule.StaysSuspended | main.c:132-145 | suspended tasks stay suspended, with the sensor in standby, until a resume time |
| Schedule.StaysActive | main.c:132-145 | active tasks stay active, with the sensor measuring, until a suspend time |
| Schedule.DailyScenario | main.c:129-151 | from boot, the evening tick suspends; the morning tick restores the boot state; the tick four minutes later restarts |
| Firmware.Outcome | main.c:198-227 | each outcome holds exactly when the checks before it pass and its own check fails, in source order: radio, peer, sensor, card, log; boot launches exactly when all five pass |
| Firmware.Logger.constructor | main.c:44-76 | at power-on the time cache, the buffer and the packet are zero; no task runs; the card is as given |
| Firmware.Logger.ReadTime | main.c:86-96 | the six cached fields become the refreshed cache of the reading, as `Clock.Refresh` states |
| Firmware.Logger.SyncClock | main.c:188-190 | the retry stops at the first attempt whose cached year is non-zero, and the cache then holds what those answers left |
| Firmware.Logger.Setup | main.c:174-238 | after boot, the cache holds what the clock's answers left at the first attempt with a non-zero year, and the log is named after that date; the outcome follows the order of the checks; only a full start launches the tasks in the boot state, with the log present and the test packet sent |
| Firmware.Logger.Launch | main.c:196-237 | an early return on wireless failure; the sensor ends in measure mode once it answers; the card and log outcome; the time cache and the name are untouched |
| Firmware.Logger.OpenLog | main.c:218-237 | a card failure or a failed create halts boot with the card unchanged; otherwise the log exists, the test packet is sent and the tasks start. A log it creates is the header alone, which is well formed; an existing log is left as it was |
| Firmware.Logger.SampleTick | main.c:104-119 | a ready reading goes into the buffer, and its line (cached time and readings) is appended to the current log and to nothing else; an open failure halts the sampler with the card unchanged; no reading, or a stopped sampler, changes nothing |
| Firmware.Logger.LogSample | main.c:111-118 | the sample's line is appended to the current log and the task keeps running, or an open failure halts the task with the card unchanged; a well-formed log stays well formed |
| Firmware.Logger.ScheduleTick | main.c:129-151 | the cache is refreshed, then the state becomes `Schedule.Tick` of the old state at the new time; the task coupling is preserved |
| Firmware.Logger.TelemetryTick | main.c:161-166 | a running sender sends the packet built from the current buffer; a suspended or restarted one sends nothing |

## Left out

- FreeRTOS scheduling, task priorities, tick delays and core pinning. Each
  task body is one atomic step, so a time read torn by the other tasks is
  not modelled.
- Wi-Fi association, NTP configuration, and the Wi-Fi mode switches around
  each send. The clock's answers are a parameter.
- The ESP-NOW send call, its delivery callback and the peer address. A sent
  packet is the return value of `TelemetryTick`; the test packet is the
  `packet` field.
- Serial diagnostics.
- SD card internals. The card is a map from file name to lines; whether the
  card starts, whether creation succeeds and whether the log opens are
  parameters. File close and flush are not modelled.
- The ADXL313 driver: range, bandwidth and full-resolution settings. A
  reading is a parameter; `dataReady` is its presence.
- Floating point. The buffer and the packet hold the readings as integers,
  which are what the line prints through `int(...)`.
- The reboot itself. A restart is a terminal flag; the new boot is a new
  `Logger`.
- `errorHalt`'s own loop and any blinking or watchdog behaviour. It is the
  `halted` flag of the sampler.
- Firmware.Logger.SyncClock: requires that the clock answers with a non-zero
  year at some point. Without such an answer the retry in `setup` spins
  forever, which a terminating method cannot express.
- Firmware.Logger.TelemetryTick: the packet is built from the whole
  three-slot buffer at once. In the firmware, Task1 writes `data[0..2]` one
  slot at a time while Task3 reads them from another core, so a sent packet
  can mix two readings. The model's atomic steps assume that torn read away.
- Firmware.Logger.SampleTick: does not restate that the line it logs reads
  back as its record. That is `Csv.LineRoundTrip`, about the same `Line`
  value. It does not restate that a well-formed log stays well formed
  either; its logging half, `Firmware.Logger.LogSample`, states that.
- The C buffers are not modelled as arrays. Strings are unbounded, and the
  buffer sizes are checked separately by the `Csv` buffer lemmas.

## Findings

| source | as written | input that shows it | evidently intended | confidence | as-written member | corrected member |
|---|---|---|---|---|---|---|
| main.c:112 | the sample line is formatted with `sprintf` into `char gpsDate[20]` | time 2025/1/1 0:0:0 with readings 0,0,0 gives `2025/1/1 0:0:0,0,0,0,\n`, 22 characters plus the terminator; any four-digit year overflows | a buffer large enough for every line, 43 bytes for plausible values | not executed | Csv.LineOverflowsBuffer | Csv.LineFitsBuffer |
