/**
  The interlock state machine: the periodic simulation tick with its two
  policies (threshold interlock in standard mode, collision and reflex in
  tactile mode), and the discrete commands that replace the same record.
  Every handler is a pure function from the previous snapshot to the next.
 */
module App {
  import opened Types
  import History

  /** Where the obstacle sits at start-up and after a mode switch. */
  const DefaultObjectPosition: real := 75.0
  /** Pressure reported at the instant of contact with the obstacle. */
  const ContactPressure: real := 100.0
  /** Pressure lost per tick once the arm is clear of the obstacle. */
  const PressureDecay: real := 5.0
  /** Pressure above which the reflex retracts the arm and blocks forward input. */
  const ReflexPressure: real := 20.0
  /** How far below the obstacle the reflex aims to retract. */
  const RecoilClearance: real := 15.0
  /** Largest retraction per tick. */
  const RecoilStep: real := 5.0

  /** The state a session starts in: powered, standard mode, nominal, a full
      window of zero samples. */
  function Initial(): (s: SystemState)
    ensures s.power && !s.isTactileMode && s.status == Nominal
    ensures s.servoAngle == 0.0 && s.pressure == 0.0
    ensures s.safetyThreshold == 80.0 && s.objectPosition == DefaultObjectPosition
    ensures s.torqueHistory == History.Zeros() && s.viewMode == Wireframe
  {
    SystemState(true, 0.0, 80.0, DefaultObjectPosition, 0.0, Nominal,
                History.Zeros(), Wireframe, false)
  }

  /** Angle and pressure, the two quantities the tactile policy advances. */
  datatype Motion = Motion(angle: real, pressure: real)

  // ---------------------------------------------------------------------
  // Periodic tick
  // ---------------------------------------------------------------------

  /** Collision check: at or past the obstacle the arm is held at its surface
      and pressure spikes; clear of it, pressure decays towards zero. */
  function Collide(angle: real, objectPosition: real, pressure: real): (m: Motion)
    ensures m.angle <= objectPosition && m.angle <= angle
    ensures angle >= objectPosition ==> m == Motion(objectPosition, ContactPressure)
    ensures angle < objectPosition ==> m.angle == angle
    ensures angle < objectPosition && pressure >= PressureDecay ==> m.pressure == pressure - PressureDecay
    ensures angle < objectPosition && 0.0 < pressure < PressureDecay ==> m.pressure == 0.0
    ensures angle < objectPosition && pressure <= 0.0 ==> m.pressure == pressure
    ensures 0.0 <= pressure <= 100.0 ==> 0.0 <= m.pressure <= 100.0
  {
    if angle >= objectPosition then
      Motion(objectPosition, ContactPressure)
    else if pressure > 0.0 && angle < objectPosition then
      Motion(angle, Max(0.0, pressure - PressureDecay))
    else
      Motion(angle, pressure)
  }

  /** Where the reflex retracts to: a fixed clearance below the obstacle, but
      never below zero. */
  function RecoilTarget(objectPosition: real): (t: real)
    ensures objectPosition >= RecoilClearance ==> t == objectPosition - RecoilClearance
    ensures objectPosition < RecoilClearance ==> t == 0.0
    ensures t >= 0.0 && (objectPosition >= 0.0 ==> t <= objectPosition)
  {
    Max(0.0, objectPosition - RecoilClearance)
  }

  /** Reflex: while pressure is high the arm retracts by at most one step
      towards the recoil target, without overshooting it. */
  function Reflex(m: Motion, objectPosition: real): (r: Motion)
    ensures r.pressure == m.pressure
    ensures m.angle - RecoilStep <= r.angle <= m.angle
    ensures m.pressure <= ReflexPressure ==> r == m
    ensures m.pressure > ReflexPressure && m.angle > RecoilTarget(objectPosition) ==>
              RecoilTarget(objectPosition) <= r.angle < m.angle &&
              (r.angle == RecoilTarget(objectPosition) || r.angle == m.angle - RecoilStep)
    ensures m.angle <= RecoilTarget(objectPosition) ==> r == m
    ensures m.angle >= 0.0 ==> r.angle >= 0.0
  {
    if m.pressure > ReflexPressure then
      var target := RecoilTarget(objectPosition);
      if m.angle > target then Motion(Max(target, m.angle - RecoilStep), m.pressure) else m
    else
      m
  }

  /** The tactile policy: collision check, then reflex. */
  function TactileStep(s: SystemState): (m: Motion)
    // contact: pressure spikes and the arm, held at the obstacle, is pulled one step back
    ensures s.servoAngle >= s.objectPosition && s.objectPosition > 0.0 ==>
              m == Motion(Max(RecoilTarget(s.objectPosition), s.objectPosition - RecoilStep), ContactPressure)
    // clear of the obstacle: pressure decays, and the arm recoils only while it stays high
    ensures s.servoAngle < s.objectPosition ==>
              m.pressure == Collide(s.servoAngle, s.objectPosition, s.pressure).pressure
    ensures s.servoAngle < s.objectPosition && m.pressure > ReflexPressure
              && s.servoAngle > RecoilTarget(s.objectPosition) ==>
              m.angle == Max(RecoilTarget(s.objectPosition), s.servoAngle - RecoilStep)
    ensures s.servoAngle < s.objectPosition
              && (m.pressure <= ReflexPressure || s.servoAngle <= RecoilTarget(s.objectPosition)) ==>
              m.angle == s.servoAngle
    ensures m.angle <= s.servoAngle && m.angle <= s.objectPosition
    ensures 0.0 <= s.pressure <= 100.0 ==> 0.0 <= m.pressure <= 100.0
    ensures s.servoAngle >= 0.0 && s.objectPosition >= 0.0 ==> m.angle >= 0.0
  {
    Reflex(Collide(s.servoAngle, s.objectPosition, s.pressure), s.objectPosition)
  }

  /** The standard policy's status: a nominal arm past the threshold trips to
      critical; every other status is kept. */
  function InterlockStatus(s: SystemState): (st: Status)
    ensures st == Critical <==>
              s.status == Critical || (s.status == Nominal && s.servoAngle > s.safetyThreshold)
    ensures st == Rebooting <==> s.status == Rebooting
  {
    if s.status == Nominal && s.servoAngle > s.safetyThreshold then Critical else s.status
  }

  /** The telemetry reading for an angle: the angle plus noise drawn from
      `random`, which stands for a uniform value in [0, 1). */
  function Reading(angle: real, random: real): (v: real)
    ensures 0.0 <= random < 1.0 ==> angle - 0.25 <= v < angle + 0.25
  {
    angle + (random - 0.5) * 0.5
  }

  /** One period of the simulation loop. `random` and `now` stand for the
      random draw and the wall clock, which the model takes as inputs. */
  function Tick(s: SystemState, random: real, now: int): (r: SystemState)
    // powered off or rebooting: nothing moves
    ensures !s.power || s.status == Rebooting ==> r == s
    // only status, angle, pressure and history can change
    ensures r == s.(status := r.status, servoAngle := r.servoAngle,
                    pressure := r.pressure, torqueHistory := r.torqueHistory)
    // a tick never clears a critical lockout
    ensures s.status == Critical ==> r.status == Critical
    ensures s.status != Critical && r.status == Critical ==>
              s.power && !s.isTactileMode && s.status == Nominal && s.servoAngle > s.safetyThreshold
    // the history is a sliding window ending in the new sample
    ensures s.power && s.status != Rebooting ==>
              r.torqueHistory == History.Push(s.torqueHistory, Sample(now, Reading(r.servoAngle, random)))
    ensures |s.torqueHistory| == MaxHistoryLength ==> |r.torqueHistory| == MaxHistoryLength
    // standard policy: no pressure, and a nominal arm past the threshold trips
    ensures s.power && s.status != Rebooting && !s.isTactileMode ==>
              r.pressure == 0.0 && r.servoAngle == s.servoAngle &&
              (r.status == Critical <==> s.status == Critical || s.servoAngle > s.safetyThreshold)
    // tactile policy: status untouched, the arm never advances nor passes the obstacle
    ensures s.isTactileMode ==> r.status == s.status && r.servoAngle <= s.servoAngle
    ensures s.isTactileMode && s.servoAngle <= s.objectPosition ==> r.servoAngle <= r.objectPosition
    ensures s.power && s.status != Rebooting && s.isTactileMode ==> r.servoAngle <= r.objectPosition
    ensures s.isTactileMode && 0.0 <= s.pressure <= 100.0 ==> 0.0 <= r.pressure <= 100.0
    // exact results: REBOOTING is neither entered nor left, each policy commits its step
    ensures r.status == Rebooting <==> s.status == Rebooting
    ensures s.power && s.status != Rebooting && !s.isTactileMode ==> r.status == InterlockStatus(s)
    ensures s.power && s.status != Rebooting && s.isTactileMode ==>
              r.servoAngle == TactileStep(s).angle && r.pressure == TactileStep(s).pressure
  {
    if !s.power || s.status == Rebooting then s
    else
      var next :=
        if s.isTactileMode then
          var m := TactileStep(s);
          s.(servoAngle := m.angle, pressure := m.pressure)
        else
          s.(pressure := 0.0, status := InterlockStatus(s));
      var sample := Sample(now, Reading(next.servoAngle, random));
      next.(torqueHistory := History.Push(s.torqueHistory, sample))
  }

  /** Contact and recoil, tick by tick: an arm at or past the obstacle is
      held there with pressure 100 and pulled 5 back in the same tick; two
      more ticks bring it to 15 below the obstacle while pressure decays by 5
      per tick, and there it stays. */
  lemma ContactRecoil(s: SystemState, r1: real, r2: real, r3: real, r4: real, t1: int, t2: int, t3: int, t4: int)
    requires s.power && s.status != Rebooting && s.isTactileMode
    requires s.objectPosition >= RecoilClearance && s.servoAngle >= s.objectPosition
    ensures var s1 := Tick(s, r1, t1);
      s1.servoAngle == s.objectPosition - 5.0 && s1.pressure == 100.0
    ensures var s2 := Tick(Tick(s, r1, t1), r2, t2);
      s2.servoAngle == s.objectPosition - 10.0 && s2.pressure == 95.0
    ensures var s3 := Tick(Tick(Tick(s, r1, t1), r2, t2), r3, t3);
      s3.servoAngle == s.objectPosition - RecoilClearance && s3.pressure == 90.0
    ensures var s4 := Tick(Tick(Tick(Tick(s, r1, t1), r2, t2), r3, t3), r4, t4);
      s4.servoAngle == s.objectPosition - RecoilClearance && s4.pressure == 85.0
  {
    var s1 := Tick(s, r1, t1);
    assert s1.servoAngle == s.objectPosition - 5.0 && s1.pressure == 100.0;
    var s2 := Tick(s1, r2, t2);
    assert s2.servoAngle == s.objectPosition - 10.0 && s2.pressure == 95.0;
    var s3 := Tick(s2, r3, t3);
    assert s3.servoAngle == s.objectPosition - RecoilClearance && s3.pressure == 90.0;
  }

  // ---------------------------------------------------------------------
  // Discrete commands
  // ---------------------------------------------------------------------

  /** First phase of a reboot: enter the rebooting state. The handler itself
      does not check the status; the reboot button is what is gated. */
  function BeginReboot(s: SystemState): (r: SystemState)
    ensures r.status == Rebooting
    ensures r.(status := s.status) == s
  {
    s.(status := Rebooting)
  }

  /** Second phase of a reboot, fired by a one-shot timer: back to nominal
      with the arm at rest and a fresh window. It is not guarded on status. */
  function CompleteReboot(s: SystemState): (r: SystemState)
    ensures r.status == Nominal && r.servoAngle == 0.0 && r.pressure == 0.0
    ensures |r.torqueHistory| == MaxHistoryLength
    ensures forall i :: 0 <= i < |r.torqueHistory| ==> r.torqueHistory[i] == History.ZeroSample
    ensures r.power == s.power && r.safetyThreshold == s.safetyThreshold
    ensures r.objectPosition == s.objectPosition && r.viewMode == s.viewMode
    ensures r.isTactileMode == s.isTactileMode
  {
    s.(status := Nominal, servoAngle := 0.0, pressure := 0.0, torqueHistory := History.Zeros())
  }

  /** Flips the master power; powering on clears any lingering status. */
  function PowerToggle(s: SystemState): (r: SystemState)
    ensures r.power != s.power
    ensures r.power ==> r.status == Nominal
    ensures !r.power ==> r.status == s.status
    ensures r.(power := s.power, status := s.status) == s
  {
    s.(power := !s.power, status := if !s.power then Nominal else s.status)
  }

  /** Whether manual angle input is locked out: power off, tripped, or
      rebooting. */
  predicate AngleLocked(s: SystemState) {
    !s.power || s.status == Critical || s.status == Rebooting
  }

  /** Whether the reflex is active, which blocks forward manual input. */
  predicate ReflexActive(s: SystemState) {
    s.isTactileMode && s.pressure > ReflexPressure
  }

  /** Manual angle input. Rejected while locked out, and rejected when it
      would advance the arm during an active reflex; otherwise committed, held
      at the obstacle in tactile mode. */
  function AngleChange(s: SystemState, val: real): (r: SystemState)
    ensures r.(servoAngle := s.servoAngle) == s
    ensures AngleLocked(s) ==> r == s
    ensures ReflexActive(s) && val > s.servoAngle ==> r == s
    ensures ReflexActive(s) ==> r.servoAngle <= s.servoAngle
    ensures !AngleLocked(s) && !s.isTactileMode ==> r.servoAngle == val
    ensures !AngleLocked(s) && s.isTactileMode && !(s.pressure > ReflexPressure && val > s.servoAngle) ==>
              r.servoAngle <= val && r.servoAngle <= s.objectPosition &&
              (r.servoAngle == val || r.servoAngle == s.objectPosition)
    ensures s.isTactileMode && s.servoAngle <= s.objectPosition ==> r.servoAngle <= r.objectPosition
  {
    if AngleLocked(s) then s
    else if s.isTactileMode && s.pressure > ReflexPressure && val > s.servoAngle then s
    else
      var target := if s.isTactileMode && val > s.objectPosition then s.objectPosition else val;
      s.(servoAngle := target)
  }

  /** Writes the operator threshold; nothing else changes. */
  function ThresholdChange(s: SystemState, val: real): (r: SystemState)
    ensures r.safetyThreshold == val
    ensures r.(safetyThreshold := s.safetyThreshold) == s
  {
    s.(safetyThreshold := val)
  }

  /** Moves the obstacle; in tactile mode an arm the obstacle now overlaps is
      pushed back to its surface in the same step. */
  function ObjectPositionChange(s: SystemState, val: real): (r: SystemState)
    ensures r.objectPosition == val
    ensures r.(objectPosition := s.objectPosition, servoAngle := s.servoAngle) == s
    ensures r.servoAngle <= s.servoAngle
    ensures s.isTactileMode ==> r.servoAngle <= val
    ensures r.servoAngle != s.servoAngle ==> s.isTactileMode && s.servoAngle > val && r.servoAngle == val
  {
    var adjusted := if s.isTactileMode && s.servoAngle > val then val else s.servoAngle;
    s.(objectPosition := val, servoAngle := adjusted)
  }

  /** Switches between wireframe and realistic rendering. */
  function ViewModeToggle(s: SystemState): (r: SystemState)
    ensures r.viewMode != s.viewMode
    ensures r.(viewMode := s.viewMode) == s
  {
    s.(viewMode := OtherView(s.viewMode))
  }

  /** Switches policy; a full reset of the policy sub-state (angle, status,
      pressure, obstacle), leaving power, threshold, view and history as they
      were. */
  function TactileModeToggle(s: SystemState): (r: SystemState)
    ensures r.isTactileMode != s.isTactileMode
    ensures r.servoAngle == 0.0 && r.status == Nominal && r.pressure == 0.0
    ensures r.objectPosition == DefaultObjectPosition
    ensures r.power == s.power && r.safetyThreshold == s.safetyThreshold
    ensures r.torqueHistory == s.torqueHistory && r.viewMode == s.viewMode
  {
    s.(isTactileMode := !s.isTactileMode, servoAngle := 0.0, status := Nominal,
       pressure := 0.0, objectPosition := DefaultObjectPosition)
  }
}
