/**
  The firmware's shared globals and its tasks.  Each task's loop body is one
  atomic step on this state: the sampling task (Task1), the schedule
  controller (Task2) and the telemetry sender (Task3).  `Setup` is the boot
  sequence that fixes the log file and launches the tasks.
 */
module Firmware {
  import opened Wrappers
  import opened Clock
  import opened Csv
  import opened Storage
  import opened Schedule
  import opened Telemetry

  /** One accelerometer reading, as integers. */
  datatype Accel = Accel(x: int, y: int, z: int)

  /** What one sampling step did. */
  datatype SampleOutcome =
    | Skipped                 // the sampling task is not running
    | NotReady                // no new reading was ready
    | Appended(line: string)  // the reading was buffered and this line was logged
    | OpenFailed              // the log could not be opened: the task halts

  /** How setup ended. */
  datatype BootOutcome =
    | Started          // tasks launched
    | RadioInitFailed  // wireless init failed: setup returned early
    | PeerAddFailed    // peer registration failed: setup returned early
    | SensorHung       // the sensor did not answer: setup spins forever
    | CardInitHalted   // the SD card did not start: halt
    | CreateHalted     // the missing log could not be created: halt

  /** How boot ends, given which collaborators come up and whether the log is there or can be created. */
  function Outcome(radioInit: bool, peerAdded: bool, sensorBegins: bool, cardBegins: bool, logReady: bool): (r: BootOutcome)
    ensures r == RadioInitFailed <==> !radioInit
    ensures r == PeerAddFailed <==> radioInit && !peerAdded
    ensures r == SensorHung <==> radioInit && peerAdded && !sensorBegins
    ensures r == CardInitHalted <==> radioInit && peerAdded && sensorBegins && !cardBegins
    ensures r == CreateHalted <==> radioInit && peerAdded && sensorBegins && cardBegins && !logReady
    ensures r == Started <==> radioInit && peerAdded && sensorBegins && cardBegins && logReady
  {
    if !radioInit then RadioInitFailed
    else if !peerAdded then PeerAddFailed
    else if !sensorBegins then SensorHung
    else if !cardBegins then CardInitHalted
    else if !logReady then CreateHalted
    else Started
  }

  class Logger {
    // The cached time of day.
    var hour: int
    var minute: int
    var second: int
    var day: int
    var month: int
    var year: int

    /** The shared buffer holding the latest reading. */
    const data: array<int>

    var task1: TaskState
    var task3: TaskState
    var sensor: SensorMode
    var restarted: bool

    /** Whether setup launched the three tasks. */
    var launched: bool
    /** Whether the sampling task stopped at a log error. */
    var halted: bool

    /** The daily log file name, fixed at boot. */
    var cap: string
    var card: Card
    /** The last packet built for sending. */
    var packet: Packet

    ghost predicate Valid()
      reads this`task1, this`task3, this`sensor, this`restarted, this`launched, this`halted
    {
      data.Length == 3 && (launched ==> Coupled(State())) && (halted ==> launched) && (restarted ==> launched)
    }

    function Cache(): Stamp
      reads this`hour, this`minute, this`second, this`day, this`month, this`year
    {
      Stamp(year, month, day, hour, minute, second)
    }

    function State(): RunState
      reads this`task1, this`task3, this`sensor, this`restarted
    {
      RunState(task1, task3, sensor, restarted)
    }

    /** The current daily log. */
    function Log(): seq<string>
      reads this`card, this`cap
    {
      Contents(card, cap)
    }

    predicate SamplerRuns()
      reads this`launched, this`restarted, this`halted, this`task1
    {
      launched && !restarted && !halted && task1 == Active
    }

    predicate SenderRuns()
      reads this`launched, this`restarted, this`task3
    {
      launched && !restarted && task3 == Active
    }

    /**
      The state boot leaves, given the card, sensor mode and packet before it
      and which collaborators came up: the outcome follows the order of the
      checks; only a full start launches the tasks in the boot state, with the
      log created if it was missing and the test packet sent; otherwise the
      card and the packet are untouched.
     */
    ghost predicate BootedAs(r: BootOutcome, card0: Card, sensor0: SensorMode, packet0: Packet,
                             radioInit: bool, peerAdded: bool, sensorBegins: bool, cardBegins: bool, createOk: bool)
      reads this
    {
      && r == Outcome(radioInit, peerAdded, sensorBegins, cardBegins, CreateIfMissing(card0, cap, createOk).Some?)
      && (launched <==> r == Started)
      && (r == Started ==> State() == Boot && packet == TestPacket && Some(card) == CreateIfMissing(card0, cap, createOk))
      && (r != Started ==> card == card0 && packet == packet0)
      && (sensor == if sensorBegins && peerAdded && radioInit then Measure else sensor0)
    }

    /**
      After the startup retry: the cache holds what the first `attempts`
      clock answers left in it, its year is not zero while no shorter run of
      answers left a non-zero year, and the daily log is named after its date.
     */
    ghost predicate NamedAfterSync(start: Stamp, clock: seq<Option<Tm>>, attempts: nat)
      reads this`hour, this`minute, this`second, this`day, this`month, this`year, this`cap
    {
      && 1 <= attempts <= |clock| && year != 0
      && Cache() == RefreshAll(start, clock[..attempts])
      && (forall n :: 1 <= n < attempts ==> !Synced(start, clock, n))
      && cap == FileName(year, month, day)
    }

    /** Power-on: every global is zero, no task exists yet, the card holds what it holds. */
    constructor (card: Card)
      ensures Valid() && fresh(data)
      ensures Cache() == Stamp(0, 0, 0, 0, 0, 0) && data[..] == [0, 0, 0]
      ensures !launched && !restarted && !halted
      ensures this.card == card && cap == "" && packet == Packet(0, 0, 0, 0)
    {
      hour, minute, second, day, month, year := 0, 0, 0, 0, 0, 0;
      data := new int[3](_ => 0);
      task1, task3, sensor := Active, Active, Standby;
      restarted, launched, halted := false, false, false;
      cap := "";
      this.card := card;
      packet := Packet(0, 0, 0, 0);
    }

    /** The time-cache update: copy a successful clock reading into the six globals. */
    method ReadTime(read: Option<Tm>)
      modifies this`hour, this`minute, this`second, this`day, this`month, this`year
      ensures Cache() == Refresh(old(Cache()), read)
    {
      match read
      case None =>
      case Some(t) =>
        hour := t.hour;
        minute := t.min;
        second := t.sec;
        day := t.mday;
        month := t.mon + 1;
        year := t.yearsSince1900 + 1900;
    }

    /**
      The startup retry: read the clock until the cached year is not zero.
      `clock` holds the clock's successive answers; it must contain one that
      ends the retry, or the loop never ends.
     */
    method SyncClock(clock: seq<Option<Tm>>) returns (attempts: nat)
      requires exists n :: 1 <= n <= |clock| && Synced(Cache(), clock, n)
      modifies this`hour, this`minute, this`second, this`day, this`month, this`year
      ensures 1 <= attempts <= |clock| && year != 0
      ensures Cache() == RefreshAll(old(Cache()), clock[..attempts])
      ensures forall n :: 1 <= n < attempts ==> !Synced(old(Cache()), clock, n)
    {
      ghost var start := Cache();
      ReadTime(clock[0]);
      attempts := 1;
      assert clock[..1][..0] == [];
      while year == 0
        invariant 1 <= attempts <= |clock|
        invariant Cache() == RefreshAll(start, clock[..attempts])
        invariant forall n :: 1 <= n < attempts ==> !Synced(start, clock, n)
        decreases |clock| - attempts
      {
        assert !Synced(start, clock, attempts);
        assert attempts < |clock|;
        ReadTime(clock[attempts]);
        assert clock[..attempts + 1][..attempts] == clock[..attempts];
        attempts := attempts + 1;
      }
    }

    /**
      Boot: synchronise the clock, name the daily log after the date, then
      bring up the rest of the device.
     */
    method Setup(clock: seq<Option<Tm>>, radioInit: bool, peerAdded: bool,
                 sensorBegins: bool, cardBegins: bool, createOk: bool)
      returns (r: BootOutcome, attempts: nat)
      requires Valid() && !launched
      requires exists n :: 1 <= n <= |clock| && Synced(Cache(), clock, n)
      modifies this`hour, this`minute, this`second, this`day, this`month, this`year, this`cap
      modifies this`sensor, this`card, this`packet, this`task1, this`task3, this`launched
      ensures Valid() && !restarted && !halted
      ensures NamedAfterSync(old(Cache()), clock, attempts)
      ensures BootedAs(r, old(card), old(sensor), old(packet), radioInit, peerAdded, sensorBegins, cardBegins, createOk)
    {
      attempts := SyncClock(clock);
      assert Valid() && !launched && card == old(card) && sensor == old(sensor) && packet == old(packet);
      cap := FileName(year, month, day);
      assert NamedAfterSync(old(Cache()), clock, attempts);
      r := Launch(radioInit, peerAdded, sensorBegins, cardBegins, createOk);
    }

    /**
      The rest of boot: wireless init and peer registration (setup returns
      early when either fails), sensor configuration ending in measure mode,
      card start, log creation with its header, the test packet, and the
      launch of the tasks.
     */
    method Launch(radioInit: bool, peerAdded: bool, sensorBegins: bool, cardBegins: bool, createOk: bool)
      returns (r: BootOutcome)
      requires Valid() && !launched
      modifies this`sensor, this`card, this`packet, this`task1, this`task3, this`launched
      ensures Valid()
      ensures BootedAs(r, old(card), old(sensor), old(packet), radioInit, peerAdded, sensorBegins, cardBegins, createOk)
      ensures Cache() == old(Cache()) && cap == old(cap)
    {
      if !radioInit {
        r := RadioInitFailed;
      } else if !peerAdded {
        r := PeerAddFailed;
      } else if !sensorBegins {
        r := SensorHung;
      } else {
        sensor := Standby;
        sensor := Measure;
        r := OpenLog(cardBegins, createOk);
      }
    }

    /**
      The card part of start-up and what follows it: make sure the daily log
      exists (creating it with its header), send the test packet and start
      the tasks. A card or create failure halts start-up.
     */
    method OpenLog(cardBegins: bool, createOk: bool) returns (r: BootOutcome)
      requires Valid() && !launched && sensor == Measure
      modifies this`card, this`packet, this`task1, this`task3, this`launched
      ensures Valid()
      ensures r == Outcome(true, true, true, cardBegins, CreateIfMissing(old(card), cap, createOk).Some?)
      ensures launched <==> r == Started
      ensures r == Started ==> State() == Boot && packet == TestPacket && Some(card) == CreateIfMissing(old(card), cap, createOk)
      ensures r != Started ==> card == old(card) && packet == old(packet)
      ensures r == Started && cap !in old(card) ==> Log() == [Header] && WellFormed(Log())
      ensures r == Started && cap in old(card) ==> Log() == old(Log())
    {
      if !cardBegins {
        r := CardInitHalted;
      } else {
        var created := CreateIfMissing(card, cap, createOk);
        if created.None? {
          r := CreateHalted;
        } else {
          card := created.value;
          packet := TestPacket;
          task1, task3 := Active, Active;
          launched := true;
          r := Started;
        }
      }
    }

    /**
      One sampling step: when a reading is ready, store it in the shared
      buffer, format it with the cached time and append the line to the log;
      if the log cannot be opened the task halts.
     */
    method SampleTick(reading: Option<Accel>, openOk: bool) returns (r: SampleOutcome)
      requires Valid()
      modifies data, this`halted, this`card
      ensures Valid()
      ensures !old(SamplerRuns()) ==> r == Skipped && data[..] == old(data[..]) && card == old(card) && halted == old(halted)
      ensures old(SamplerRuns()) && reading.None? ==> r == NotReady && data[..] == old(data[..]) && card == old(card) && !halted
      ensures old(SamplerRuns()) && reading.Some? ==>
                data[..] == [reading.value.x, reading.value.y, reading.value.z]
      ensures old(SamplerRuns()) && reading.Some? && openOk ==>
                && r == Appended(Line(Record(Cache(), reading.value.x, reading.value.y, reading.value.z)))
                && card == Append(old(card), cap, r.line)
                && Log() == old(Log()) + [r.line]
                && !halted
      ensures old(SamplerRuns()) && reading.Some? && !openOk ==> r == OpenFailed && card == old(card) && halted
    {
      if !SamplerRuns() {
        r := Skipped;
      } else if reading.None? {
        r := NotReady;
      } else {
        var a := reading.value;
        data[0], data[1], data[2] := a.x, a.y, a.z;
        r := LogSample(Record(Cache(), a.x, a.y, a.z), openOk);
      }
    }

    /**
      The logging half of a sampling step: open the daily log for appending
      and write the sample's line; an open failure halts the task.
     */
    method LogSample(rec: Record, openOk: bool) returns (r: SampleOutcome)
      requires Valid() && launched && !halted
      modifies this`halted, this`card
      ensures Valid()
      ensures openOk ==> && r == Appended(Line(rec))
                         && card == Append(old(card), cap, Line(rec))
                         && Log() == old(Log()) + [Line(rec)]
                         && !halted
      ensures !openOk ==> r == OpenFailed && card == old(card) && halted
      ensures old(WellFormed(Log())) ==> WellFormed(Log())
    {
      if !openOk {
        halted := true;
        r := OpenFailed;
      } else {
        if WellFormed(Log()) {
          AppendKeepsLog(card, cap, rec);
        }
        card := Append(card, cap, Line(rec));
        r := Appended(Line(rec));
      }
    }

    /**
      One controller step: refresh the cached time, then check the suspend,
      resume and restart times in turn.
     */
    method ScheduleTick(read: Option<Tm>)
      requires Valid()
      modifies this`hour, this`minute, this`second, this`day, this`month, this`year
      modifies this`task1, this`task3, this`sensor, this`restarted
      ensures Valid()
      ensures !old(launched) || old(restarted) ==> Cache() == old(Cache()) && State() == old(State())
      ensures old(launched) && !old(restarted) ==> Cache() == Refresh(old(Cache()), read)
      ensures old(launched) ==> State() == Tick(old(State()), Cache())
    {
      if !launched || restarted {
        return;
      }
      ReadTime(read);
      if hour == 21 && minute == 12 && second == 10 {
        task1 := Suspended;
        task3 := Suspended;
        sensor := Standby;
      }
      if hour == 6 && minute == 12 && second == 10 {
        task1 := Active;
        task3 := Active;
        sensor := Measure;
      }
      if (hour == 6 && minute == 16 && second == 10) || (hour == 6 && minute == 18 && second == 10) {
        restarted := true;
      }
      TickKeepsCoupled(old(State()), Cache());
    }

    /** One telemetry step: build the packet from the shared buffer and hand it to the radio. */
    method TelemetryTick() returns (sent: Option<Packet>)
      requires Valid()
      modifies this`packet
      ensures old(SenderRuns()) ==> sent == Some(packet) && packet == MakePacket(data[..])
      ensures !old(SenderRuns()) ==> sent == None && packet == old(packet)
    {
      if !SenderRuns() {
        return None;
      }
      packet := Packet(SourceId, data[0], data[1], data[2]);
      sent := Some(packet);
    }
  }
}
