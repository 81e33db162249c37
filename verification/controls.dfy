/**
  The decisions the control panel makes: which commands are enabled, which
  setpoint control is offered in which mode, and the values each slider can
  produce.
 */
module Controls {
  import opened Types
  import App

  /** The manual angle slider is greyed out when power is off or the
      interlock is tripped or rebooting. */
  predicate AngleSliderDisabled(power: bool, status: Status): (d: bool)
    ensures !d <==> power && status == Nominal
  {
    !power || status == Critical || status == Rebooting
  }

  /** The reboot button is only clickable while tripped. */
  predicate RebootEnabled(status: Status): (e: bool)
    ensures e <==> AngleSliderDisabled(true, status) && status != Rebooting
  {
    status == Critical
  }

  /** The obstacle slider is offered in tactile mode only. */
  predicate ObjectSliderShown(isTactileMode: bool) {
    isTactileMode
  }

  /** The threshold slider is offered in standard mode only. */
  predicate ThresholdSliderShown(isTactileMode: bool) {
    !isTactileMode
  }

  /** A value a range input with bounds `lo`..`hi` and granularity `step` can
      report: within the bounds, and a whole number of steps above `lo`. */
  predicate OnSlider(lo: real, hi: real, step: real, v: real)
    requires step > 0.0
  {
    lo <= v <= hi && ((v - lo) / step).Floor as real == (v - lo) / step
  }

  /** Values of the manual angle slider: 0 to 100 in steps of 0.1. */
  predicate AngleInputValue(v: real) {
    OnSlider(0.0, 100.0, 0.1, v)
  }

  /** Values of the obstacle slider: 20 to 100 in whole steps. */
  predicate ObjectInputValue(v: real) {
    OnSlider(20.0, 100.0, 1.0, v)
  }

  /** Values of the threshold slider: 0 to 100 in whole steps. */
  predicate ThresholdInputValue(v: real) {
    OnSlider(0.0, 100.0, 1.0, v)
  }

  /** The slider domains, as ranges; both ends are reachable. */
  lemma SliderDomains(v: real)
    ensures AngleInputValue(v) ==> 0.0 <= v <= 100.0
    ensures ObjectInputValue(v) ==> 20.0 <= v <= 100.0
    ensures ThresholdInputValue(v) ==> 0.0 <= v <= 100.0
    ensures AngleInputValue(0.0) && AngleInputValue(100.0) && AngleInputValue(0.1) && !AngleInputValue(0.05)
    ensures ObjectInputValue(20.0) && ObjectInputValue(100.0) && !ObjectInputValue(19.0)
    ensures ThresholdInputValue(0.0) && ThresholdInputValue(100.0) && !ThresholdInputValue(0.5)
  {
    assert (0.1 - 0.0) / 0.1 == 1.0;
    assert (100.0 - 0.0) / 0.1 == 1000.0;
    assert (0.5 - 0.0) / 1.0 == 0.5;
    assert (0.5).Floor == 0;
    assert (0.05 - 0.0) / 0.1 == 0.5;
  }

  /** Exactly one setpoint slider is on screen in each mode, and the hidden
      one is the setpoint the active policy's tick does not read: the tactile
      tick ignores the threshold and the standard tick ignores the obstacle. */
  lemma OneSetpointSlider(s: SystemState, v: real, random: real, now: int)
    ensures ObjectSliderShown(s.isTactileMode) != ThresholdSliderShown(s.isTactileMode)
    ensures !ThresholdSliderShown(s.isTactileMode) ==>
              App.Tick(s.(safetyThreshold := v), random, now) == App.Tick(s, random, now).(safetyThreshold := v)
    ensures !ObjectSliderShown(s.isTactileMode) ==>
              App.Tick(s.(objectPosition := v), random, now) == App.Tick(s, random, now).(objectPosition := v)
  {
  }

  /** The slider is disabled exactly when the angle handler rejects
      everything: the widget and the handler apply the same lockout. */
  lemma AngleSliderDisabledIffInert(s: SystemState)
    ensures AngleSliderDisabled(s.power, s.status) <==> App.AngleLocked(s)
    ensures AngleSliderDisabled(s.power, s.status) <==> forall v :: App.AngleChange(s, v) == s
  {
    if !AngleSliderDisabled(s.power, s.status) {
      // moving the arm back by one is accepted in every mode
      var v := s.servoAngle - 1.0;
      var r := App.AngleChange(s, v);
      assert r.servoAngle != s.servoAngle;
    }
  }

  /** Reboot is clickable only while tripped, and then the angle slider is
      locked; after the click the reboot button locks itself too. */
  lemma RebootButtonGuards(s: SystemState)
    requires RebootEnabled(s.status)
    ensures AngleSliderDisabled(s.power, s.status)
    ensures !RebootEnabled(App.BeginReboot(s).status)
    ensures AngleSliderDisabled(App.BeginReboot(s).power, App.BeginReboot(s).status)
  {
  }
}
