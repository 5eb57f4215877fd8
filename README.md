# Time Scale Editor — verified model of the time-scale controller

The Time Scale Editor is an editor window for a game engine. It lets a
developer change the simulation time scale and the target frame rate while
the game runs. In play mode a new time scale is not applied at once. The
window eases from the value in effect to the new target over a fixed
0.5-second transition, using a linear interpolation driven by the editor's
wall clock. In edit mode it writes new targets straight into the engine and
mirrors whatever the engine holds. The frame rate is never interpolated.

The project has three modules:

- `Mathf` (`Mathf.dfy`): the engine's `Clamp01` and `Lerp` over `real`, with
  their range, monotonicity and strict-betweenness facts.
- `TimeScaleModel` (`TimeScaleModel.dfy`): a snapshot `World` of the window's six
  fields and the four engine globals it uses (`Time.timeScale`,
  `Application.targetFrameRate`, `EditorApplication.isPlaying`,
  `EditorApplication.timeSinceStartup`). It defines one pure step function per
  callback (`OnEnable`, `Update`, `SetTargetTimeScale`, `SetTargetFrameRate`)
  and lemmas about them. An `Event` trace (`Step`, `Run`) covers properties
  that span several ticks. Besides the window's own operations, its events
  are the clock moving forward, play mode being entered or left, and other
  code (a game script, the project settings) writing the engine's time scale
  or frame rate directly.
- `TimeScaleEditor` (`TimeScaleEditor.dfy`): the imperative form. An `Engine`
  object holds the four globals as plain fields. A `TimeScaleWindow` class
  updates its fields in place and writes the engine's globals. Each method's
  `ensures` equates the new `State()` with the matching step of
  `TimeScaleModel` applied to `old(State())`, so every model lemma carries over
  to the methods. The class is called `TimeScaleWindow` so that it does not
  share a name with its module.

Points where the code could be read more than one way:

- The comment at TimeScaleEditor.cs:153 says an edit-mode change is applied
  "immediately", which a reader could take to include the window's own current
  value. The code writes the new target only to `Time.timeScale`
  (TimeScaleEditor.cs:154-157) and does not assign `_currentTimeScale`. The
  window's current value catches up on the next edit-mode `Update`
  (TimeScaleEditor.cs:47). The model follows the code. See
  `EditModeRetargetShowsOnNextUpdate`.
- The target is assigned before the anchor is snapshotted
  (TimeScaleEditor.cs:149-150). Nothing observable depends on this order,
  because the two are different fields.
- `OnEnable` does not reset `_transitionStartTime`. The transition is still at
  rest after it, because the anchor equals the target (`OnEnableIsAtRest`).

## Model

| member | source | states |
|---|---|---|
| `Mathf.Clamp01` | TimeScaleEditor.cs:55 | the result lies in [0, 1], equals the input inside [0, 1], and saturates at 0 below and at 1 above |
| `Mathf.Lerp` | TimeScaleEditor.cs:57 | the interpolated value always lies between the two end points, equals the first at t ≤ 0 and the second at t ≥ 1 |
| `Mathf.LerpMonotone` | TimeScaleEditor.cs:55-57 | a later interpolation parameter moves the value towards the second end point, never back |
| `Mathf.LerpStrictlyBetween` | TimeScaleEditor.cs:57 | for distinct end points and 0 < t < 1 the value lies strictly between them |
| `TimeScaleModel.Progress` | TimeScaleEditor.cs:54-55 | transition progress lies in [0, 1], is 0 before the transition starts and 1 once the 0.5 s duration has elapsed |
| `TimeScaleModel.Interpolated` | TimeScaleEditor.cs:54-57 | the prescribed time scale lies between anchor and target, equals the anchor at the start and the target once the duration has elapsed |
| `TimeScaleModel.PresetsInRange` | TimeScaleEditor.cs:79-122 | every time-scale preset (0, 0.1, 0.3, 1, 2) lies in the slider range [0, 2] and every frame-rate preset (-1, 5, 30, 60, 120) in [-1, 120] |
| `TimeScaleModel.OnEnableLoadsEngine` | TimeScaleEditor.cs:26-34 | after OnEnable the target, current and anchor time scale equal the engine's time scale, target and current frame rate equal the engine's frame rate, and the transition clock and engine are untouched |
| `TimeScaleModel.OnEnableIsAtRest` | TimeScaleEditor.cs:28-30 | after OnEnable a play-mode Update at any instant leaves the time scale at the engine's value |
| `TimeScaleModel.UpdateInEditModeResyncs` | TimeScaleEditor.cs:45-51 | an edit-mode Update copies the engine's time scale and frame rate into the current fields, changes no target or transition field, and leaves the engine unchanged |
| `TimeScaleModel.UpdateInPlayModeInterpolates` | TimeScaleEditor.cs:54-57 | a play-mode Update sets current to lerp(anchor, target, clamp01((now − start) / 0.5)), which lies between anchor and target; targets and anchor are kept |
| `TimeScaleModel.UpdateInPlayModeWritesEngine` | TimeScaleEditor.cs:58-64 | after a play-mode Update the engine time scale equals current, the engine frame rate equals the target frame rate, and the current frame rate equals the engine's |
| `TimeScaleModel.UpdateReachesTarget` | TimeScaleEditor.cs:54-58 | once 0.5 s have elapsed since the transition started, a play-mode Update makes current and the engine time scale equal the target exactly |
| `TimeScaleModel.UpdateHalfwayIsMidpoint` | TimeScaleEditor.cs:54-57 | a quarter second into the transition the time scale is the midpoint of anchor and target, strictly between them when they differ |
| `TimeScaleModel.InterpolatedMonotone` | TimeScaleEditor.cs:54-57 | as the clock advances, the prescribed time scale moves monotonically from anchor towards target |
| `TimeScaleModel.SetTargetTimeScaleReanchors` | TimeScaleEditor.cs:147-151 | the target becomes the new value, the anchor becomes the pre-call current value, the transition clock restarts at now, and current and both frame-rate fields are unchanged |
| `TimeScaleModel.SetTargetTimeScaleWritesThroughInEditMode` | TimeScaleEditor.cs:153-157 | the engine time scale becomes the new target in edit mode and is untouched in play mode; no other engine value changes |
| `TimeScaleModel.RetargetDoesNotJump` | TimeScaleEditor.cs:147-158 | in play mode an Update at the same instant as a re-target yields the pre-call current value, in the window and in the engine |
| `TimeScaleModel.RetargetBetweenTicksIsContinuous` | TimeScaleEditor.cs:147-151 | the play-mode ticks just before and just after a re-target at the same instant show the same time scale |
| `TimeScaleModel.RetargetThenTickIsLinearInTime` | TimeScaleEditor.cs:54-57 | dt seconds (0 ≤ dt ≤ 0.5) after a play-mode re-target from current value c to x, Update gives c + (x − c) · dt / 0.5, so the value starts at c and changes continuously |
| `TimeScaleModel.PlayModeTickOverridesEngineWrites` | TimeScaleEditor.cs:54-62 | in play mode, a time scale or frame rate written into the engine by other code is replaced on the next tick by the interpolated value (the target once settled) and the target frame rate |
| `TimeScaleModel.EditModeTickAdoptsEngineWrites` | TimeScaleEditor.cs:45-51 | in edit mode, a time scale or frame rate written into the engine by other code stays in the engine and shows in the window's current fields on the next tick |
| `TimeScaleModel.EditModeRetargetShowsOnNextUpdate` | TimeScaleEditor.cs:153-157 | in edit mode re-targeting leaves the window's current value alone, and the next Update makes it the new target |
| `TimeScaleModel.SetTargetFrameRateIsAStep` | TimeScaleEditor.cs:160-169 | only the target frame rate changes in the window; the engine frame rate becomes the new value in edit mode only; every time-scale field and every other engine value is unchanged |
| `TimeScaleModel.FrameRateShowsOnNextUpdate` | TimeScaleEditor.cs:60-64 | after setting a frame rate (including -1, uncapped), the next Update shows exactly that value in the window and in the engine, in either mode |
| `TimeScaleModel.SettledStaysAtTarget` | TimeScaleEditor.cs:54-58 | once the transition has run its duration, any sequence of ticks, frame-rate changes, clock advances, play-mode changes and engine writes by other code keeps target, anchor and start, and every later play-mode Update lands on the target |
| `TimeScaleModel.EditThenPlayScenario` | TimeScaleEditor.cs:147-157 | in edit mode at scale 1, setting 0 reaches the engine at once and the window on its next Update; in play mode setting 2 then gives 1 after 0.25 s and 2 after 0.5 s |
| `TimeScaleEditor.TimeScaleWindow.constructor` | TimeScaleEditor.cs:10-16 | a new window holds the field initialisers: target and current scale 1, anchor and start 0, both frame rates 60 |
| `TimeScaleEditor.TimeScaleWindow.OnEnable` | TimeScaleEditor.cs:26-34 | the fields become the OnEnable step of the model; all three time-scale fields equal the engine's time scale and both frame-rate fields equal the engine's frame rate |
| `TimeScaleEditor.TimeScaleWindow.Update` | TimeScaleEditor.cs:43-67 | the window and engine become the Update step of the model; the engine is untouched in edit mode; in play mode current lies between anchor and target and is written to the engine, and the engine and current frame rates equal the target |
| `TimeScaleEditor.TimeScaleWindow.SetTargetTimeScale` | TimeScaleEditor.cs:147-158 | the window and engine become the SetTargetTimeScale step; the anchor is the unchanged current value; the engine time scale changes only in edit mode |
| `TimeScaleEditor.TimeScaleWindow.SetTargetFrameRate` | TimeScaleEditor.cs:160-169 | the window and engine become the SetTargetFrameRate step; only the two frame-rate fields may change, the engine's only in edit mode |

## Left out

- Menu registration and window creation (`ShowWindow`, TimeScaleEditor.cs:18-24) are host UI glue with no logic.
- Immediate-mode drawing (`OnGUI`, `DrawTimeScaleControls`, `DrawFrameRateControls`, the preset-button helpers, icon lookup, `Repaint`) is foreign UI code. Only its slider ranges and preset values are kept, as the setters' preconditions and as `PresetsInRange`. The "Uncapped" label is display formatting.
- The sliders assign the target field themselves on every GUI pass (TimeScaleEditor.cs:79, 107), not only when the user moves them. The model assumes a slider returns its input unchanged when the user did not move it, and so does not model that assignment. The assumption matters for the frame rate: `OnEnable` can load an engine frame rate outside the slider range [-1, 120], and a slider that clamped it on redraw would change `_targetFrameRate` without calling the setter.
- Floating point: the `double` to `float` cast of elapsed time and the rounding inside `Mathf.Lerp` and `Mathf.Clamp01` are not modelled. All time scales and times are `real`. The exact equalities proved by `UpdateReachesTarget`, `SettledStaysAtTarget`, `UpdateHalfwayIsMidpoint`, `RetargetThenTickIsLinearInTime` and `EditThenPlayScenario` hold over `real` only. In single precision, `a + (b − a) · 1` need not equal `b` exactly: with a = 2 and b = 0.1 it rounds to 0.10000002, so a transition from 2x to the 0.1x preset can end one unit in the last place away from the preset.
- Any clamping or coercion the engine applies to `Time.timeScale` or `Application.targetFrameRate` is not modelled. The engine globals are plain fields that store what is written.
- The editor clock is modelled as a field the host advances. `Run` takes its advances as non-negative, that is, the clock is monotonic.
- Play-mode entry and exit are modelled only as the host flipping `isPlaying`. Any engine re-initialisation of the window on those transitions is not modelled.
