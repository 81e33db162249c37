/**
  The status banner: which message to show and whether to style it as an
  alarm, chosen from the status, the mode and optional sensor readings.
 */
module StatusBanner {
  import opened Types
  import App

  /** An optional numeric property that reads as 0 when it is not passed. */
  datatype Prop = Omitted | Passed(value: real) {
    function OrZero(): (v: real)
      ensures Passed? ==> v == value
      ensures Omitted? ==> v == 0.0
    {
      if Passed? then value else 0.0
    }
  }

  /** The colour scheme: cyan when calm, red when tripped, orange while
      monitoring in tactile mode. */
  datatype Tone = Calm | Alarm | Monitoring

  datatype View = View(text: string, tone: Tone, pulse: bool)

  const OverheatingText := "CRITICAL: OVERHEATING"
  const VibrationText := "CRITICAL: UNSTABLE VIBRATION"
  const CollisionText := "CRITICAL: COLLISION DETECTED"
  const TripText := "MULTI-SENSOR TRIP ACTIVATED"
  const MonitoringText := "MULTI-SENSOR MONITORING ACTIVE"

  /** Sensor limits for the trip message. */
  const HeatLimit: real := 80.0
  const VibrationLimit: real := 80.0
  const CollisionPressure: real := 95.0

  /** The banner for the given inputs. `isReflexActive` is accepted but does
      not influence the result. */
  function Banner(status: Status, isReflexActive: bool, isTactileMode: bool,
                  heat: Prop, vibration: Prop, pressure: Prop): (b: View)
    ensures b.pulse <==> status == Critical
    ensures b.tone == Alarm <==> status == Critical
    ensures b.tone == Monitoring <==> status != Critical && isTactileMode
    ensures !isTactileMode ==> b.text == StatusText(status)
    ensures isTactileMode && status != Critical ==> b.text == MonitoringText
    ensures isTactileMode && status == Critical ==>
              b.text in {OverheatingText, VibrationText, CollisionText, TripText}
  {
    var h, v, p := heat.OrZero(), vibration.OrZero(), pressure.OrZero();
    if status == Critical then
      var text :=
        if !isTactileMode then StatusText(status)
        else if h > HeatLimit then OverheatingText
        else if v > VibrationLimit then VibrationText
        else if p > CollisionPressure then CollisionText
        else TripText;
      View(text, Alarm, true)
    else if isTactileMode then
      View(MonitoringText, Monitoring, false)
    else
      View(StatusText(status), Calm, false)
  }

  /** In a tripped tactile banner each message names exactly the first
      sensor, in the order heat, vibration, pressure, that is over its limit. */
  lemma TripMessagePriority(isReflexActive: bool, heat: Prop, vibration: Prop, pressure: Prop)
    ensures var t := Banner(Critical, isReflexActive, true, heat, vibration, pressure).text;
      && (t == OverheatingText <==> heat.OrZero() > HeatLimit)
      && (t == VibrationText <==> heat.OrZero() <= HeatLimit && vibration.OrZero() > VibrationLimit)
      && (t == CollisionText <==> heat.OrZero() <= HeatLimit && vibration.OrZero() <= VibrationLimit
                                   && pressure.OrZero() > CollisionPressure)
      && (t == TripText <==> heat.OrZero() <= HeatLimit && vibration.OrZero() <= VibrationLimit
                              && pressure.OrZero() <= CollisionPressure)
  {
    assert OverheatingText != VibrationText && OverheatingText != CollisionText;
    assert OverheatingText != TripText && VibrationText != CollisionText;
    assert VibrationText != TripText && CollisionText != TripText;
  }

  /** The reflex flag never changes the banner. */
  lemma ReflexFlagIgnored(status: Status, isTactileMode: bool, heat: Prop, vibration: Prop, pressure: Prop)
    ensures Banner(status, true, isTactileMode, heat, vibration, pressure)
         == Banner(status, false, isTactileMode, heat, vibration, pressure)
  {
  }

  /** The banner as the application renders it: status, reflex flag and mode,
      with no sensor readings. */
  function ForState(s: SystemState): View {
    Banner(s.status, App.ReflexActive(s), s.isTactileMode, Omitted, Omitted, Omitted)
  }

  /** Without sensor readings a tripped tactile banner can only show the
      generic trip message. */
  lemma OmittedReadingsGiveGenericTrip(s: SystemState)
    requires s.status == Critical && s.isTactileMode
    ensures ForState(s).text == TripText
    ensures ForState(s).pulse
  {
    assert OverheatingText != TripText && VibrationText != TripText && CollisionText != TripText;
  }
}
