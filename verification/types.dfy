/**
  The state record of the interlock simulator: the interlock status, the
  rendering mode, one telemetry sample, and the single authoritative
  `SystemState` snapshot that every tick and every command replaces
  wholesale.
 */
module Types {

  /** The interlock state: exactly one of three distinct values. */
  datatype Status = Nominal | Critical | Rebooting

  /** The text value each status carries; the banner shows it verbatim in
      standard mode. */
  function StatusText(s: Status): (t: string)
    ensures |t| > 0
  {
    match s
    case Nominal => "NOMINAL"
    case Critical => "CRITICAL FAILURE"
    case Rebooting => "REBOOTING..."
  }

  /** Distinct statuses carry distinct texts, so the text identifies the status. */
  lemma StatusTextInjective(a: Status, b: Status)
    ensures StatusText(a) == StatusText(b) <==> a == b
  {
    if a != b {
      var ta, tb := StatusText(a), StatusText(b);
      assert ta[0] != tb[0] || |ta| != |tb|;
    }
  }

  datatype ViewMode = Wireframe | Realistic

  /** The other of the two view modes. */
  function OtherView(v: ViewMode): (w: ViewMode)
    ensures w != v
  {
    if v == Wireframe then Realistic else Wireframe
  }

  /** Swapping twice returns to the start: the view toggle is an involution. */
  lemma OtherViewInvolution(v: ViewMode)
    ensures OtherView(OtherView(v)) == v
  {
  }

  /** One telemetry record: a wall-clock time in milliseconds and a reading. */
  datatype Sample = Sample(time: int, value: real)

  /** Capacity of the telemetry window. Its value lives in a constants file
      that is not part of this model; all that is used is that it is positive. */
  type Capacity = n: nat | n > 0 witness 1
  const MaxHistoryLength: Capacity

  /** The authoritative snapshot. Index 0 of `torqueHistory` is the oldest sample. */
  datatype SystemState = SystemState(
    power: bool,
    servoAngle: real,
    safetyThreshold: real,
    objectPosition: real,
    pressure: real,
    status: Status,
    torqueHistory: seq<Sample>,
    viewMode: ViewMode,
    isTactileMode: bool
  )

  function Max(a: real, b: real): (m: real)
    ensures m >= a && m >= b
    ensures m == a || m == b
  {
    if a >= b then a else b
  }
}
