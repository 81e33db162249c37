/**
  A session as a sequence of events, each handled to completion against the
  latest snapshot: timer ticks, the reboot timer, and the operator's
  commands. This is where the properties that span several operations live,
  above all the invariant every event keeps.
 */
module Session {
  import opened Types
  import History
  import App
  import Controls
  import StatusBanner

  /** Everything that can replace the snapshot. */
  datatype Event =
    | Timer(random: real, now: int)
    | RebootPressed
    | RebootTimerFired
    | PowerPressed
    | AngleInput(angle: real)
    | ThresholdInput(threshold: real)
    | ObjectInput(position: real)
    | ViewPressed
    | ModePressed

  function Step(s: SystemState, e: Event): SystemState {
    match e
    case Timer(random, now) => App.Tick(s, random, now)
    case RebootPressed => App.BeginReboot(s)
    case RebootTimerFired => App.CompleteReboot(s)
    case PowerPressed => App.PowerToggle(s)
    case AngleInput(v) => App.AngleChange(s, v)
    case ThresholdInput(v) => App.ThresholdChange(s, v)
    case ObjectInput(v) => App.ObjectPositionChange(s, v)
    case ViewPressed => App.ViewModeToggle(s)
    case ModePressed => App.TactileModeToggle(s)
  }

  /** The snapshot after handling `es` in order. */
  function Run(s: SystemState, es: seq<Event>): SystemState
    decreases |es|
  {
    if |es| == 0 then s else Run(Step(s, es[0]), es[1..])
  }

  /** Arguments as the sliders can produce them. */
  predicate FromSlider(e: Event) {
    match e
    case AngleInput(v) => Controls.AngleInputValue(v)
    case ThresholdInput(v) => Controls.ThresholdInputValue(v)
    case ObjectInput(v) => Controls.ObjectInputValue(v)
    case _ => true
  }

  /** In tactile mode the arm is never past the obstacle. */
  predicate ArmClear(s: SystemState) {
    s.isTactileMode ==> s.servoAngle <= s.objectPosition
  }

  /** The invariant of every reachable snapshot. */
  predicate Valid(s: SystemState) {
    && |s.torqueHistory| == MaxHistoryLength
    && 0.0 <= s.pressure <= 100.0
    && 0.0 <= s.servoAngle <= 100.0
    && 0.0 <= s.safetyThreshold <= 100.0
    && 20.0 <= s.objectPosition <= 100.0
    && ArmClear(s)
    && (s.isTactileMode ==> s.status != Critical)
  }

  /** Every event keeps the obstacle clamp, provided the obstacle is not
      below zero (a reboot puts the arm at 0). */
  lemma StepKeepsArmClear(s: SystemState, e: Event)
    requires s.objectPosition >= 0.0 && ArmClear(s)
    ensures ArmClear(Step(s, e))
  {
  }

  lemma InitialValid()
    ensures Valid(App.Initial())
  {
  }

  /** Every event whose argument comes from its slider keeps the invariant. */
  lemma StepKeepsValid(s: SystemState, e: Event)
    requires Valid(s) && FromSlider(e)
    ensures Valid(Step(s, e))
  {
    match e
    case AngleInput(v) => Controls.SliderDomains(v);
    case ThresholdInput(v) => Controls.SliderDomains(v);
    case ObjectInput(v) => Controls.SliderDomains(v);
    case _ =>
  }

  /** Every snapshot reachable from a valid one by slider-produced events is
      valid. */
  lemma {:induction false} RunKeepsValid(s: SystemState, es: seq<Event>)
    requires Valid(s)
    requires forall i :: 0 <= i < |es| ==> FromSlider(es[i])
    ensures Valid(Run(s, es))
    decreases |es|
  {
    if |es| > 0 {
      StepKeepsValid(s, es[0]);
      RunKeepsValid(Step(s, es[0]), es[1..]);
    }
  }

  /** Tactile mode is never tripped. */
  predicate NoTactileTrip(s: SystemState) {
    s.isTactileMode ==> s.status != Critical
  }

  /** Every event, whatever its argument, keeps tactile mode untripped. */
  lemma {:induction false} RunKeepsNoTactileTrip(s: SystemState, es: seq<Event>)
    requires NoTactileTrip(s)
    ensures NoTactileTrip(Run(s, es))
    decreases |es|
  {
    if |es| > 0 {
      assert NoTactileTrip(Step(s, es[0]));
      RunKeepsNoTactileTrip(Step(s, es[0]), es[1..]);
    }
  }

  /** A session never shows a tripped tactile banner: tactile mode cannot
      reach CRITICAL, whatever values the setpoints are given, so the banner
      reads the monitoring message throughout. */
  lemma {:induction false} TactileBannerAlwaysMonitoring(es: seq<Event>)
    ensures var s := Run(App.Initial(), es);
      s.isTactileMode ==> s.status != Critical && StatusBanner.ForState(s).text == StatusBanner.MonitoringText
  {
    RunKeepsNoTactileTrip(App.Initial(), es);
  }

  predicate AllTimers(es: seq<Event>) {
    forall i :: 0 <= i < |es| ==> es[i].Timer?
  }

  /** No number of ticks clears a critical lockout. */
  lemma {:induction false} TicksKeepCritical(s: SystemState, es: seq<Event>)
    requires s.status == Critical && AllTimers(es)
    ensures Run(s, es).status == Critical
    decreases |es|
  {
    if |es| > 0 {
      TicksKeepCritical(Step(s, es[0]), es[1..]);
    }
  }

  /** While rebooting, ticks change nothing at all. */
  lemma {:induction false} RebootingIgnoresTicks(s: SystemState, es: seq<Event>)
    requires s.status == Rebooting && AllTimers(es)
    ensures Run(s, es) == s
    decreases |es|
  {
    if |es| > 0 {
      RebootingIgnoresTicks(Step(s, es[0]), es[1..]);
    }
  }

  /** Handling two batches in turn is handling their concatenation. */
  lemma {:induction false} RunAppend(s: SystemState, es: seq<Event>, fs: seq<Event>)
    ensures Run(s, es + fs) == Run(Run(s, es), fs)
    decreases |es|
  {
    if |es| == 0 {
      assert es + fs == fs;
    } else {
      assert (es + fs)[1..] == es[1..] + fs;
      RunAppend(Step(s, es[0]), es[1..], fs);
    }
  }

  lemma RunTwo(s: SystemState, a: Event, b: Event)
    ensures Run(s, [a, b]) == Step(Step(s, a), b)
  {
    assert [a, b][1..] == [b];
    assert Run(Step(s, a), [b]) == Run(Step(Step(s, a), b), []);
  }

  /** The reboot sequence: press, any number of ticks, timer fires. The result
      is nominal with the arm at rest and a window of zero samples, and
      nothing but status, angle, pressure and history differs. */
  lemma RebootSequence(s: SystemState, ticks: seq<Event>)
    requires AllTimers(ticks)
    ensures var r := Run(s, [RebootPressed] + ticks + [RebootTimerFired]);
      r == s.(status := Nominal, servoAngle := 0.0, pressure := 0.0, torqueHistory := History.Zeros())
  {
    var b := App.BeginReboot(s);
    RunAppend(s, [RebootPressed], ticks);
    RunAppend(s, [RebootPressed] + ticks, [RebootTimerFired]);
    RebootingIgnoresTicks(b, ticks);
  }

  /** Only a reboot, a power cycle or a mode switch ever leaves CRITICAL. */
  lemma LeavingCritical(s: SystemState, e: Event)
    requires s.status == Critical && Step(s, e).status != Critical
    ensures e.RebootPressed? || e.RebootTimerFired? || e.PowerPressed? || e.ModePressed?
  {
  }

  /** Switching power off and on again clears the fault and nothing else. */
  lemma PowerCycleClearsStatus(s: SystemState)
    requires s.power
    ensures App.PowerToggle(App.PowerToggle(s)) == s.(status := Nominal)
  {
  }

  /** The view toggle is an involution. */
  lemma ViewToggleTwice(s: SystemState)
    ensures App.ViewModeToggle(App.ViewModeToggle(s)) == s
  {
    OtherViewInvolution(s.viewMode);
  }

  /** Switching mode twice is the same reset as switching once, back in the
      original mode. */
  lemma ModeToggleTwice(s: SystemState)
    ensures App.TactileModeToggle(App.TactileModeToggle(s))
         == App.TactileModeToggle(s).(isTactileMode := s.isTactileMode)
  {
  }

  /** Moving the obstacle to the same place twice is the same as once, and
      the last threshold written wins. */
  lemma SetpointsIdempotent(s: SystemState, a: real, b: real)
    ensures App.ObjectPositionChange(App.ObjectPositionChange(s, a), a) == App.ObjectPositionChange(s, a)
    ensures App.ThresholdChange(App.ThresholdChange(s, a), b) == App.ThresholdChange(s, b)
  {
  }

  /** With an active reflex, no manual input and no tick moves the arm
      forward. */
  lemma ReflexPriority(s: SystemState, v: real, random: real, now: int)
    requires App.ReflexActive(s)
    ensures Step(s, AngleInput(v)).servoAngle <= s.servoAngle
    ensures Step(s, Timer(random, now)).servoAngle <= s.servoAngle
  {
  }

  /** Threshold 80, arm driven to 85, one tick: the interlock trips, the
      slider locks, a later input of 10 is rejected, and only the reboot
      sequence brings back a nominal arm. */
  lemma TripScenario(random: real, now: int, later: int)
    ensures var s1 := Run(App.Initial(), [AngleInput(85.0), Timer(random, now)]);
      && s1.status == Critical && s1.servoAngle == 85.0
      && Controls.AngleSliderDisabled(s1.power, s1.status)
      && Run(s1, [AngleInput(10.0), Timer(random, later)]).servoAngle == 85.0
      && Run(s1, [AngleInput(10.0), Timer(random, later)]).status == Critical
      && Run(s1, [RebootPressed, RebootTimerFired]).status == Nominal
  {
    RunTwo(App.Initial(), AngleInput(85.0), Timer(random, now));
    var s1 := Run(App.Initial(), [AngleInput(85.0), Timer(random, now)]);
    RunTwo(s1, AngleInput(10.0), Timer(random, later));
    RunTwo(s1, RebootPressed, RebootTimerFired);
  }
}
