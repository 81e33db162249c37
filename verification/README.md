# Robotic-arm safety interlock: a Dafny model

This project models the decision logic of a browser simulator of a
robotic-arm safety interlock. A single `SystemState` record holds the power
flag, servo angle, safety threshold, obstacle position, contact pressure,
interlock status (NOMINAL, CRITICAL FAILURE, REBOOTING...), a telemetry
window, the view mode and the tactile-mode flag. Every handler replaces that
record wholesale, and each one is modelled as a pure function from state to
state:

- the 50 ms simulation tick, which runs one of two policies. In standard
  mode it is a threshold interlock: a nominal arm past the threshold trips
  to CRITICAL, and a tick never clears CRITICAL. In tactile mode it handles
  collision and reflex: the arm is held at the obstacle, pressure spikes to
  100 on contact and then decays by 5 per tick, and the arm recoils by 5
  per tick, stopping at 15 below the obstacle, while pressure exceeds 20.
  Every tick then appends a sample to a fixed-length telemetry window;
- the commands: reboot (two phases), power toggle, manual angle input with
  its lockout, reflex guard and obstacle clamp, threshold and obstacle
  writes, the view toggle, and the mode toggle, which resets the policy
  sub-state;
- the control panel's enable predicates and slider domains, and the status
  banner's choice of message and alarm styling.

Modules follow the source files:

- `Types` (types.ts) holds the data model.
- `History` models the telemetry window.
- `App` (App.tsx) holds the tick and the handlers.
- `Controls` (components/Controls.tsx) and `StatusBanner` (components/StatusBanner.tsx) hold the two display modules.
- `Session` holds the properties that span several events. Its main result is the invariant that every reachable state keeps.

Numbers are mathematical reals. The random draw and the wall clock used for
the telemetry sample are parameters of `App.Tick`. The window capacity is
defined in a constants file that is not part of this model. It is declared
here as an arbitrary positive constant `MaxHistoryLength`, so every result
holds for every capacity.

Where the model follows the code rather than the intent suggested by names and comments:

- `App.BeginReboot` is not guarded. Only the reboot button is disabled outside CRITICAL (components/Controls.tsx:170).
- `App.CompleteReboot` is not guarded on status either.
- CRITICAL is left not only through a reboot but also by turning the power back on and by switching mode (`Session.LeavingCritical`).
- REBOOTING can also be left early, by power-on or a mode switch. The pending reboot completion then still fires.
- The setpoint handlers store their argument without clamping it. Only the sliders bound the values.
- The tactile policy never changes the status. Together with the mode switch resetting the status to NOMINAL, this means that no reachable tactile-mode state is CRITICAL (`Session.StepKeepsValid`). The banner's tactile trip messages are therefore never shown by the application. It also passes no sensor readings to the banner.

## Model

| member | source | states |
|---|---|---|
| Types.StatusTextInjective | types.ts:1-5 | the three statuses carry pairwise distinct display texts, so the text identifies the status |
| Types.OtherViewInvolution | types.ts:7 | with exactly two view modes, taking the other one twice returns to the start |
| App.Initial | App.tsx:13-23 | the session starts powered, in standard mode and wireframe view, NOMINAL, with angle 0, pressure 0, threshold 80, obstacle 75 and a window of N zero samples |
| History.Push | App.tsx:78-80 | the new sample is the last element; below capacity the sample is simply appended; at capacity the result is the old window minus its first element plus the sample, with the length unchanged |
| History.PushKeepsFull | App.tsx:79-80 | a full window stays exactly full, and every surviving sample moves down by one index |
| History.PushAllSlides | App.tsx:77-80 | after k pushes onto a full window, the window is the old window followed by the k samples, minus the first k elements |
| History.PushAllKeepsMostRecent | App.tsx:77-80 | after at least N pushes, the window is exactly the last N samples in order, and element 0 is the N-th most recent push |
| History.Zeros | App.tsx:20 | the start-up window has exactly N samples, all with time 0 and value 0 |
| App.Collide | App.tsx:43-52 | the arm never ends past the obstacle or ahead of where it was; contact holds the arm at the obstacle with pressure 100; off contact the arm stays put and the pressure drops by exactly 5, or to 0 when it was below 5, or stays unchanged when it was not positive; pressure stays in [0,100] |
| App.RecoilTarget | App.tsx:58 | the recoil target is exactly 15 below the obstacle when the obstacle is at 15 or more, and 0 otherwise; it is never past a non-negative obstacle |
| App.Reflex | App.tsx:54-63 | pressure is untouched; the arm retracts by at most 5; above pressure 20 an arm beyond the target moves back to exactly 5 less or to the target, whichever is higher; otherwise nothing moves; a non-negative angle stays non-negative |
| App.TactileStep | App.tsx:41-63 | on contact with a positive obstacle, pressure becomes 100 and the arm ends at the obstacle minus 5 or at the recoil target, whichever is higher; clear of the obstacle, the pressure is the decayed collision pressure, and the arm moves to 5 less or to the target, whichever is higher, exactly when that pressure exceeds 20 and the arm is beyond the target, and otherwise stays put; the arm never advances or ends past the obstacle; pressure stays in [0,100] |
| App.InterlockStatus | App.tsx:68-75 | the status is CRITICAL afterwards exactly when it was CRITICAL or it was NOMINAL with the angle above the threshold; REBOOTING is preserved exactly |
| App.Reading | App.tsx:78 | for a random draw in [0,1) the telemetry reading lies within 0.25 of the angle |
| App.ContactRecoil | App.tsx:41-63 | an arm at or past the obstacle ends a tick 5 short of it with pressure 100; the next two ticks pull it to 10 and then 15 short, with pressure 95 and 90; the fourth tick leaves it at 15 short with pressure 85 |
| App.Tick | App.tsx:29-89 | with power off or while rebooting the tick returns the state unchanged; only status, angle, pressure and history change; CRITICAL is never cleared, and it is entered only from NOMINAL in standard mode past the threshold; the history is the previous window with the new sample pushed and keeps length N; standard mode zeroes pressure and keeps the angle; tactile mode keeps the status, never advances the arm, never leaves it past the obstacle, and keeps pressure in [0,100]; REBOOTING is neither entered nor left; a standard tick commits exactly the interlock status, and a tactile tick commits exactly the angle and pressure of the tactile step |
| App.BeginReboot | App.tsx:95-96 | the reboot start sets REBOOTING and changes nothing else |
| App.CompleteReboot | App.tsx:97-104 | reboot completion gives NOMINAL, angle 0, pressure 0 and a window of N zero samples; power, threshold, obstacle, view and mode are kept |
| App.PowerToggle | App.tsx:108-110 | power flips; turning on forces NOMINAL; turning off keeps the status; nothing else changes |
| App.AngleChange | App.tsx:112-126 | only the angle can change; the input is ignored with power off, while CRITICAL or while REBOOTING; forward input is rejected during an active reflex; standard mode commits the value; tactile mode commits the value held at the obstacle; the obstacle clamp is preserved |
| App.ThresholdChange | App.tsx:128-130 | the threshold takes the value and nothing else changes |
| App.ObjectPositionChange | App.tsx:132-145 | the obstacle takes the value; the angle never increases and is lowered, to exactly the new position, only in tactile mode when it exceeded it; nothing else changes |
| App.ViewModeToggle | App.tsx:147-149 | the view mode becomes the other one and nothing else changes |
| App.TactileModeToggle | App.tsx:151-160 | the mode flag flips; angle 0, NOMINAL, pressure 0 and obstacle 75 are reset; power, threshold, view and history are untouched |
| Controls.AngleSliderDisabled | components/Controls.tsx:89 | the angle slider is enabled exactly when power is on and the status is NOMINAL |
| Controls.RebootEnabled | components/Controls.tsx:168-170 | reboot is offered exactly when a powered arm's angle slider is locked for a reason other than rebooting, that is, while CRITICAL |
| Controls.SliderDomains | components/Controls.tsx:82-142 | the angle slider yields values in [0,100] in steps of 0.1, the obstacle slider values in [20,100], and the threshold slider values in [0,100]; the ends are reachable, and off-step values (0.05 on the angle slider, 0.5 on the threshold slider) and values below the obstacle minimum are not |
| Controls.OneSetpointSlider | components/Controls.tsx:104-155 | exactly one setpoint control is offered: the obstacle in tactile mode, the threshold in standard mode; the hidden setpoint is one the active policy's tick does not read |
| Controls.AngleSliderDisabledIffInert | components/Controls.tsx:89 | the slider is disabled exactly under the handler's lockout guard, and exactly when the angle handler ignores every input |
| Controls.RebootButtonGuards | components/Controls.tsx:168-170 | when reboot is enabled (status CRITICAL) the angle slider is locked, and after the click reboot is no longer enabled |
| StatusBanner.Banner | components/StatusBanner.tsx:11-45 | the pulse animation and alarm tone are applied exactly when CRITICAL; the orange tone is used exactly for a non-critical tactile banner; standard mode shows the status text; non-critical tactile mode shows the monitoring text; a critical tactile banner shows one of the four trip messages |
| StatusBanner.TripMessagePriority | components/StatusBanner.tsx:31-36 | in a critical tactile banner each message is shown exactly when its sensor is the first over its limit, in the order heat above 80, vibration above 80, pressure above 95; otherwise the generic trip message is shown |
| StatusBanner.ReflexFlagIgnored | components/StatusBanner.tsx:4-11 | the reflex flag passed to the banner does not affect it |
| StatusBanner.OmittedReadingsGiveGenericTrip | components/StatusBanner.tsx:11-35 | as rendered by the application, without sensor readings, a critical tactile banner pulses and shows the generic trip message |
| Session.InitialValid | App.tsx:13-23 | the start-up state satisfies the invariant |
| Session.StepKeepsArmClear | App.tsx:29-160 | with a non-negative obstacle, every tick and command preserves "tactile implies angle at most obstacle" |
| Session.StepKeepsValid | App.tsx:29-160 | every tick and every command with a slider-produced argument preserves the invariant: window length N, pressure, angle and threshold in [0,100], obstacle in [20,100], the obstacle clamp, and no CRITICAL in tactile mode |
| Session.RunKeepsValid | App.tsx:29-160 | every state reachable by slider-produced events from a valid state is valid |
| Session.RunKeepsNoTactileTrip | App.tsx:29-160 | from an untripped tactile state, every event sequence, with any argument values, keeps tactile mode out of CRITICAL |
| Session.TactileBannerAlwaysMonitoring | App.tsx:196 | in every reachable tactile-mode state, with any setpoint values, the status is not CRITICAL and the rendered banner reads the monitoring message |
| Session.TicksKeepCritical | App.tsx:68-75 | no sequence of ticks leaves CRITICAL |
| Session.RebootingIgnoresTicks | App.tsx:32 | while REBOOTING any sequence of ticks leaves the state exactly unchanged |
| Session.RebootSequence | App.tsx:95-106 | pressing reboot, then any ticks, then the timer firing, gives NOMINAL, angle 0, pressure 0 and a zero window, with every other field unchanged |
| Session.LeavingCritical | App.tsx:95-160 | the only events that leave CRITICAL are reboot start or completion, the power toggle and the mode toggle |
| Session.PowerCycleClearsStatus | App.tsx:108-110 | switching a powered system off and on yields the same state with NOMINAL status |
| Session.ViewToggleTwice | App.tsx:147-149 | the view toggle applied twice is the identity |
| Session.ModeToggleTwice | App.tsx:151-160 | switching mode twice is the same reset as switching once, back in the original mode |
| Session.SetpointsIdempotent | App.tsx:128-145 | moving the obstacle to the same place twice equals doing it once, and the last threshold written wins |
| Session.ReflexPriority | App.tsx:112-126 | during an active reflex neither manual input nor a tick moves the arm forward |
| Session.TripScenario | App.tsx:72-73 | with threshold 80, driving the arm to 85 and ticking trips to CRITICAL and locks the slider; a later input of 10 is rejected and the state stays CRITICAL; a reboot press followed by the timer restores NOMINAL |

## Left out

- The scheduling is not modelled: React state hooks, the 50 ms interval, its teardown, and the 2000 ms reboot timer. The tick is one function. Reboot is two events, and any events may be interleaved between them.
- The login gate that starts the loop (App.tsx:27) is not modelled. It is presentation state only.
- The angle handler reads its guard from the rendered state but commits through the latest state. The model handles events sequentially, so both are the same snapshot.
- `Math.random()` and `Date.now()` are parameters of the tick. Floating point is modelled as mathematical reals.
- The state declares heat, vibration, manual setpoints, an operator permissive and a serial-connection flag (types.ts:15-25). The application never initialises or updates them, so the state record omits them. There is no multi-sensor AND-gate policy and no serial feed in the modelled code.
- The banner's styling is reduced to a tone (calm, alarm, monitoring) and a pulse flag. The class strings and decorative corners are left out.
- components/Controls.tsx:42 computes a reflex flag with threshold 50 that nothing uses. It is not modelled.
- The 3D viewport, analytics chart, logic-gate diagram and landing page are rendering only. They are left out.
- Session.StepKeepsValid: assumes slider-produced arguments (`FromSlider`), because the handlers store out-of-range values unclamped.
