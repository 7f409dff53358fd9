/**
  The schedule controller.  Each tick it compares the cached time of day with
  three configured times: at 21:12:10 it suspends the sampling and telemetry
  tasks and puts the sensor in standby, at 06:12:10 it resumes both and turns
  measurement back on, and at 06:16:10 or 06:18:10 it restarts the device.
 */
module Schedule {
  import opened Clock

  datatype TaskState = Active | Suspended

  /** The accelerometer's power mode. */
  datatype SensorMode = Measure | Standby

  /** What the controller governs: the sampling task, the telemetry task, the sensor, and the restart. */
  datatype RunState = RunState(task1: TaskState, task3: TaskState, sensor: SensorMode, restarted: bool)

  /** The state setup leaves behind when it launches the tasks. */
  const Boot: RunState := RunState(Active, Active, Measure, false)

  predicate IsSuspendTime(t: Stamp) {
    t.hour == 21 && t.minute == 12 && t.second == 10
  }

  predicate IsResumeTime(t: Stamp) {
    t.hour == 6 && t.minute == 12 && t.second == 10
  }

  predicate IsRestartTime(t: Stamp) {
    (t.hour == 6 && t.minute == 16 && t.second == 10) ||
    (t.hour == 6 && t.minute == 18 && t.second == 10)
  }

  function Suspend(c: RunState): RunState {
    c.(task1 := Suspended, task3 := Suspended, sensor := Standby)
  }

  function Resume(c: RunState): RunState {
    c.(task1 := Active, task3 := Active, sensor := Measure)
  }

  /**
    One controller tick on the freshly cached time: the three checks are
    independent and run in source order.  A restarted device runs no tick.
   */
  function Tick(c: RunState, now: Stamp): RunState {
    if c.restarted then c
    else
      var afterSuspend := if IsSuspendTime(now) then Suspend(c) else c;
      var afterResume := if IsResumeTime(now) then Resume(afterSuspend) else afterSuspend;
      if IsRestartTime(now) then afterResume.(restarted := true) else afterResume
  }

  /** The same checks read as "the first match wins, later ones are skipped". */
  function TickFirstMatch(c: RunState, now: Stamp): RunState {
    if c.restarted then c
    else if IsSuspendTime(now) then Suspend(c)
    else if IsResumeTime(now) then Resume(c)
    else if IsRestartTime(now) then c.(restarted := true)
    else c
  }

  /** Both controlled tasks share one state, and the sensor is in standby exactly when they are suspended. */
  predicate Coupled(c: RunState) {
    c.task1 == c.task3 && (c.sensor == Standby <==> c.task1 == Suspended)
  }

  /** The state after a run of ticks at the given cached times. */
  function RunTicks(c: RunState, times: seq<Stamp>): RunState
    decreases |times|
  {
    if times == [] then c else RunTicks(Tick(c, times[0]), times[1..])
  }

  /** The configured times are pairwise distinct, so at most one check fires in a tick. */
  lemma AtMostOneFires(now: Stamp)
    ensures !(IsSuspendTime(now) && IsResumeTime(now))
    ensures !(IsSuspendTime(now) && IsRestartTime(now))
    ensures !(IsResumeTime(now) && IsRestartTime(now))
  {
  }

  /** Hence the order of the independent checks never matters. */
  lemma OrderIrrelevant(c: RunState, now: Stamp)
    ensures Tick(c, now) == TickFirstMatch(c, now)
  {
    AtMostOneFires(now);
  }

  /** A tick at the suspend time suspends both tasks and the sensor, and repeating it changes nothing. */
  lemma SuspendIdempotent(c: RunState, now: Stamp)
    requires IsSuspendTime(now) && !c.restarted
    ensures Tick(c, now).task1 == Suspended && Tick(c, now).task3 == Suspended
    ensures Tick(c, now).sensor == Standby && !Tick(c, now).restarted
    ensures Tick(Tick(c, now), now) == Tick(c, now)
  {
  }

  /** A tick at the resume time resumes both tasks and the sensor, and repeating it changes nothing. */
  lemma ResumeIdempotent(c: RunState, now: Stamp)
    requires IsResumeTime(now) && !c.restarted
    ensures Tick(c, now).task1 == Active && Tick(c, now).task3 == Active
    ensures Tick(c, now).sensor == Measure && !Tick(c, now).restarted
    ensures Tick(Tick(c, now), now) == Tick(c, now)
  {
  }

  /** A tick at any other time changes nothing; one at a restart time restarts and touches nothing else. */
  lemma TickElsewhere(c: RunState, now: Stamp)
    ensures !IsSuspendTime(now) && !IsResumeTime(now) && !IsRestartTime(now) ==> Tick(c, now) == c
    ensures IsRestartTime(now) ==> Tick(c, now) == c.(restarted := true)
  {
  }

  /** Every tick keeps the two tasks and the sensor in step. */
  lemma TickKeepsCoupled(c: RunState, now: Stamp)
    requires Coupled(c)
    ensures Coupled(Tick(c, now))
  {
  }

  /** From the boot state, every run of ticks keeps the two tasks and the sensor in step. */
  lemma {:induction false} RunKeepsCoupled(c: RunState, times: seq<Stamp>)
    requires Coupled(c)
    ensures Coupled(RunTicks(c, times))
    decreases |times|
  {
    if times != [] {
      TickKeepsCoupled(c, times[0]);
      RunKeepsCoupled(Tick(c, times[0]), times[1..]);
    }
  }

  /** The restart is terminal: after it no tick changes anything. */
  lemma {:induction false} RunAfterRestart(c: RunState, times: seq<Stamp>)
    requires c.restarted
    ensures RunTicks(c, times) == c
    decreases |times|
  {
    if times != [] {
      RunAfterRestart(Tick(c, times[0]), times[1..]);
    }
  }

  /** A run that passes through a restart time ends restarted. */
  lemma {:induction false} RunReachesRestart(c: RunState, times: seq<Stamp>, i: nat)
    requires i < |times| && IsRestartTime(times[i])
    ensures RunTicks(c, times).restarted
    decreases |times|
  {
    var next := Tick(c, times[0]);
    if i == 0 {
      RunAfterRestart(next, times[1..]);
    } else {
      RunReachesRestart(next, times[1..], i - 1);
    }
  }

  /** Suspended tasks stay suspended, with the sensor in standby, until a resume time comes. */
  lemma {:induction false} StaysSuspended(c: RunState, times: seq<Stamp>)
    requires Coupled(c) && c.task1 == Suspended
    requires forall i :: 0 <= i < |times| ==> !IsResumeTime(times[i])
    ensures RunTicks(c, times).task1 == Suspended && RunTicks(c, times).task3 == Suspended
    ensures RunTicks(c, times).sensor == Standby
    decreases |times|
  {
    if times != [] {
      StaysSuspended(Tick(c, times[0]), times[1..]);
    }
  }

  /** Active tasks stay active, with the sensor measuring, until a suspend time comes. */
  lemma {:induction false} StaysActive(c: RunState, times: seq<Stamp>)
    requires Coupled(c) && c.task1 == Active
    requires forall i :: 0 <= i < |times| ==> !IsSuspendTime(times[i])
    ensures RunTicks(c, times).task1 == Active && RunTicks(c, times).task3 == Active
    ensures RunTicks(c, times).sensor == Measure
    decreases |times|
  {
    if times != [] {
      StaysActive(Tick(c, times[0]), times[1..]);
    }
  }

  /** One day from boot: suspend in the evening, resume in the morning, restart four minutes later. */
  lemma DailyScenario(d: Stamp)
    ensures var evening := d.(hour := 21, minute := 12, second := 10);
            var morning := d.(hour := 6, minute := 12, second := 10);
            var reboot := d.(hour := 6, minute := 16, second := 10);
            && Tick(Boot, evening) == RunState(Suspended, Suspended, Standby, false)
            && RunTicks(Boot, [evening, morning]) == Boot
            && RunTicks(Boot, [evening, morning, reboot]) == Boot.(restarted := true)
  {
    var evening := d.(hour := 21, minute := 12, second := 10);
    var morning := d.(hour := 6, minute := 12, second := 10);
    var reboot := d.(hour := 6, minute := 16, second := 10);
    assert [evening, morning][1..] == [morning];
    assert [evening, morning, reboot][1..] == [morning, reboot];
    assert [morning, reboot][1..] == [reboot];
    assert [morning][1..] == [] && [reboot][1..] == [];
    var night := Tick(Boot, evening);
    assert RunTicks(night, [morning]) == Tick(night, morning) == Boot;
    assert RunTicks(Boot, [evening, morning]) == RunTicks(night, [morning]);
    assert RunTicks(Boot, [reboot]) == Boot.(restarted := true);
    assert RunTicks(night, [morning, reboot]) == RunTicks(Boot, [reboot]);
  }
}
