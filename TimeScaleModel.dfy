// The time-scale / frame-rate controller of the editor window, as pure
// functions over a snapshot of the window's fields and the engine's globals.
// The imperative window in TimeScaleEditor.dfy is proved to perform exactly
// these steps; the lemmas below say what the steps mean.

module TimeScaleModel {
  import opened Mathf

  /** Length, in seconds, of the smooth time-scale transition during play mode. */
  const TransitionDuration: real := 0.5

  /** The range the target time-scale slider offers. */
  const MinTimeScale: real := 0.0
  const MaxTimeScale: real := 2.0

  /** The range the target frame-rate slider offers; -1 means uncapped. */
  const Uncapped: int := -1
  const MaxFrameRate: int := 120

  /** Values offered by the preset buttons. */
  const TimeScalePresets: seq<real> := [0.0, 0.1, 0.3, 1.0, 2.0]
  const FrameRatePresets: seq<int> := [Uncapped, 5, 30, 60, 120]

  predicate ValidTimeScale(x: real) {
    MinTimeScale <= x <= MaxTimeScale
  }

  predicate ValidFrameRate(n: int) {
    Uncapped <= n <= MaxFrameRate
  }

  /** The engine globals the window reads and writes: Time.timeScale,
      Application.targetFrameRate, EditorApplication.isPlaying and
      EditorApplication.timeSinceStartup. */
  datatype EngineState = EngineState(
    timeScale: real,
    targetFrameRate: int,
    isPlaying: bool,
    timeSinceStartup: real)

  /** The window's own fields. */
  datatype WindowState = WindowState(
    targetTimeScale: real,
    currentTimeScale: real,
    timeScaleOnTransitionStart: real,
    transitionStartTime: real,
    targetFrameRate: int,
    currentFrameRate: int)

  datatype World = World(window: WindowState, engine: EngineState)

  /** The window's field initialisers, before the engine enables it. */
  const InitialWindow: WindowState := WindowState(1.0, 1.0, 0.0, 0.0, 60, 60)

  /** How far, from 0 to 1, the transition started at `start` has progressed at `now`. */
  function Progress(start: real, now: real): (t: real)
    ensures 0.0 <= t <= 1.0
    ensures now <= start ==> t == 0.0
    ensures start + TransitionDuration <= now ==> t == 1.0
  {
    Clamp01((now - start) / TransitionDuration)
  }

  /** The time scale the transition described by `w` prescribes at `now`. */
  function Interpolated(w: WindowState, now: real): (r: real)
    ensures Between(w.timeScaleOnTransitionStart, w.targetTimeScale, r)
    ensures now <= w.transitionStartTime ==> r == w.timeScaleOnTransitionStart
    ensures w.transitionStartTime + TransitionDuration <= now ==> r == w.targetTimeScale
  {
    Lerp(w.timeScaleOnTransitionStart, w.targetTimeScale, Progress(w.transitionStartTime, now))
  }

  /** OnEnable: every field is loaded from the engine; the transition clock is not touched. */
  function OnEnable(s: World): World {
    var e := s.engine;
    s.(window := s.window.(
      targetTimeScale := e.timeScale,
      currentTimeScale := e.timeScale,
      timeScaleOnTransitionStart := e.timeScale,
      targetFrameRate := e.targetFrameRate,
      currentFrameRate := e.targetFrameRate))
  }

  /** Update: in edit mode re-read the engine; in play mode advance the
      transition and push both values into the engine. */
  function Update(s: World): World {
    var w, e := s.window, s.engine;
    if !e.isPlaying then
      s.(window := w.(currentTimeScale := e.timeScale, currentFrameRate := e.targetFrameRate))
    else
      var current := Interpolated(w, e.timeSinceStartup);
      var frameRate := if e.targetFrameRate != w.targetFrameRate then w.targetFrameRate else e.targetFrameRate;
      World(w.(currentTimeScale := current, currentFrameRate := frameRate),
            e.(timeScale := current, targetFrameRate := frameRate))
  }

  /** SetTargetTimeScale: set the target, re-anchor the transition at the
      current value, restart its clock, and in edit mode write the target
      straight into the engine. */
  function SetTargetTimeScale(s: World, newTarget: real): World
    requires ValidTimeScale(newTarget)
  {
    var w, e := s.window, s.engine;
    var w' := w.(targetTimeScale := newTarget,
                 timeScaleOnTransitionStart := w.currentTimeScale,
                 transitionStartTime := e.timeSinceStartup);
    World(w', if !e.isPlaying then e.(timeScale := newTarget) else e)
  }

  /** SetTargetFrameRate: set the target, and in edit mode write it straight into the engine. */
  function SetTargetFrameRate(s: World, newTarget: int): World
    requires ValidFrameRate(newTarget)
  {
    var e := s.engine;
    World(s.window.(targetFrameRate := newTarget),
          if !e.isPlaying then e.(targetFrameRate := newTarget) else e)
  }

  // ---------------------------------------------------------------------------
  // Input ranges

  lemma PresetsInRange()
    ensures forall i :: 0 <= i < |TimeScalePresets| ==> ValidTimeScale(TimeScalePresets[i])
    ensures forall i :: 0 <= i < |FrameRatePresets| ==> ValidFrameRate(FrameRatePresets[i])
  {
  }

  // ---------------------------------------------------------------------------
  // One step at a time

  lemma OnEnableLoadsEngine(s: World)
    ensures var s' := OnEnable(s);
      && s'.window.targetTimeScale == s.engine.timeScale
      && s'.window.currentTimeScale == s.engine.timeScale
      && s'.window.timeScaleOnTransitionStart == s.engine.timeScale
      && s'.window.targetFrameRate == s.engine.targetFrameRate
      && s'.window.currentFrameRate == s.engine.targetFrameRate
      && s'.window.transitionStartTime == s.window.transitionStartTime
      && s'.engine == s.engine
  {
  }

  /** Right after OnEnable the transition is at rest: whatever the clock says,
      a play-mode Update leaves the time scale where the engine had it. */
  lemma OnEnableIsAtRest(s: World)
    requires s.engine.isPlaying
    ensures Update(OnEnable(s)).window.currentTimeScale == s.engine.timeScale
    ensures Update(OnEnable(s)).engine.timeScale == s.engine.timeScale
  {
  }

  lemma UpdateInEditModeResyncs(s: World)
    requires !s.engine.isPlaying
    ensures var s' := Update(s);
      && s'.window.currentTimeScale == s.engine.timeScale
      && s'.window.currentFrameRate == s.engine.targetFrameRate
      && s'.window.targetTimeScale == s.window.targetTimeScale
      && s'.window.timeScaleOnTransitionStart == s.window.timeScaleOnTransitionStart
      && s'.window.transitionStartTime == s.window.transitionStartTime
      && s'.window.targetFrameRate == s.window.targetFrameRate
      && s'.engine == s.engine
  {
  }

  lemma UpdateInPlayModeInterpolates(s: World)
    requires s.engine.isPlaying
    ensures var s', w := Update(s), s.window;
      && s'.window.currentTimeScale
         == Lerp(w.timeScaleOnTransitionStart, w.targetTimeScale,
                 Clamp01((s.engine.timeSinceStartup - w.transitionStartTime) / TransitionDuration))
      && Between(w.timeScaleOnTransitionStart, w.targetTimeScale, s'.window.currentTimeScale)
      && s'.window.targetTimeScale == w.targetTimeScale
      && s'.window.timeScaleOnTransitionStart == w.timeScaleOnTransitionStart
      && s'.window.transitionStartTime == w.transitionStartTime
      && s'.window.targetFrameRate == w.targetFrameRate
  {
  }

  lemma UpdateInPlayModeWritesEngine(s: World)
    requires s.engine.isPlaying
    ensures var s' := Update(s);
      && s'.engine.timeScale == s'.window.currentTimeScale
      && s'.engine.targetFrameRate == s.window.targetFrameRate
      && s'.window.currentFrameRate == s'.engine.targetFrameRate
      && s'.engine.isPlaying == s.engine.isPlaying
      && s'.engine.timeSinceStartup == s.engine.timeSinceStartup
  {
  }

  /** Once the transition's duration has elapsed, play-mode Update lands exactly on the target. */
  lemma UpdateReachesTarget(s: World)
    requires s.engine.isPlaying
    requires s.window.transitionStartTime + TransitionDuration <= s.engine.timeSinceStartup
    ensures Update(s).window.currentTimeScale == s.window.targetTimeScale
    ensures Update(s).engine.timeScale == s.window.targetTimeScale
  {
  }

  /** Halfway through the transition the time scale is exactly the midpoint,
      hence strictly between two distinct end points. */
  lemma UpdateHalfwayIsMidpoint(s: World)
    requires s.engine.isPlaying
    requires s.engine.timeSinceStartup == s.window.transitionStartTime + TransitionDuration / 2.0
    ensures var w := s.window;
      Update(s).window.currentTimeScale == (w.timeScaleOnTransitionStart + w.targetTimeScale) / 2.0
    ensures var w := s.window;
      w.timeScaleOnTransitionStart != w.targetTimeScale ==>
        StrictlyBetween(w.timeScaleOnTransitionStart, w.targetTimeScale, Update(s).window.currentTimeScale)
  {
  }

  /** In play mode the transition never moves away from its target as time goes on. */
  lemma InterpolatedMonotone(w: WindowState, now1: real, now2: real)
    requires now1 <= now2
    ensures w.timeScaleOnTransitionStart <= w.targetTimeScale ==>
      Interpolated(w, now1) <= Interpolated(w, now2)
    ensures w.targetTimeScale <= w.timeScaleOnTransitionStart ==>
      Interpolated(w, now2) <= Interpolated(w, now1)
  {
    var start := w.transitionStartTime;
    Clamp01Monotone((now1 - start) / TransitionDuration, (now2 - start) / TransitionDuration);
    LerpMonotone(w.timeScaleOnTransitionStart, w.targetTimeScale,
                 Progress(start, now1), Progress(start, now2));
  }

  lemma SetTargetTimeScaleReanchors(s: World, x: real)
    requires ValidTimeScale(x)
    ensures var s' := SetTargetTimeScale(s, x);
      && s'.window.targetTimeScale == x
      && s'.window.timeScaleOnTransitionStart == s.window.currentTimeScale
      && s'.window.transitionStartTime == s.engine.timeSinceStartup
      && s'.window.currentTimeScale == s.window.currentTimeScale
      && s'.window.targetFrameRate == s.window.targetFrameRate
      && s'.window.currentFrameRate == s.window.currentFrameRate
  {
  }

  /** The setter writes through to the engine's time scale only in edit mode. */
  lemma SetTargetTimeScaleWritesThroughInEditMode(s: World, x: real)
    requires ValidTimeScale(x)
    ensures var e, e' := s.engine, SetTargetTimeScale(s, x).engine;
      && e'.timeScale == (if e.isPlaying then e.timeScale else x)
      && e'.targetFrameRate == e.targetFrameRate
      && e'.isPlaying == e.isPlaying
      && e'.timeSinceStartup == e.timeSinceStartup
  {
  }

  /** Re-targeting in play mode does not jump: an Update at the same instant
      reproduces the value the transition had reached. */
  lemma RetargetDoesNotJump(s: World, x: real)
    requires ValidTimeScale(x)
    requires s.engine.isPlaying
    ensures Update(SetTargetTimeScale(s, x)).window.currentTimeScale == s.window.currentTimeScale
    ensures Update(SetTargetTimeScale(s, x)).engine.timeScale == s.window.currentTimeScale
  {
  }

  /** The tick before and the tick after a play-mode re-target, at the same
      instant, show the same time scale. */
  lemma RetargetBetweenTicksIsContinuous(s: World, x: real)
    requires ValidTimeScale(x)
    requires s.engine.isPlaying
    ensures var before := Update(s);
      Update(SetTargetTimeScale(before, x)).window.currentTimeScale == before.window.currentTimeScale
  {
  }

  /** After a play-mode re-target to `x` from current value `c`, an Update `dt`
      seconds later (within the transition) has moved the fraction dt / 0.5 of
      the way from `c` to `x`: the value changes continuously, starting at `c`. */
  lemma RetargetThenTickIsLinearInTime(s: World, x: real, dt: real)
    requires ValidTimeScale(x)
    requires s.engine.isPlaying
    requires 0.0 <= dt <= TransitionDuration
    ensures var c := s.window.currentTimeScale;
      var s1 := SetTargetTimeScale(s, x);
      var s2 := s1.(engine := s1.engine.(timeSinceStartup := s1.engine.timeSinceStartup + dt));
      Update(s2).window.currentTimeScale - c == (x - c) * (dt / TransitionDuration)
  {
  }

  /** In play mode the window owns the time scale and the frame rate: a value
      written into the engine by other code is overwritten on the next tick. */
  lemma PlayModeTickOverridesEngineWrites(s: World, x: real, n: int)
    requires s.engine.isPlaying
    ensures var s' := Step(Step(s, EngineTimeScale(x)), EngineFrameRate(n));
      && Update(s').engine.timeScale == Interpolated(s.window, s.engine.timeSinceStartup)
      && Update(s').engine.targetFrameRate == s.window.targetFrameRate
    ensures var s' := Step(Step(s, EngineTimeScale(x)), EngineFrameRate(n));
      Settled(s) ==> Update(s').engine.timeScale == s.window.targetTimeScale
  {
  }

  /** In edit mode the window defers to the engine: a value written there by
      other code shows in the window on the next tick and stays in the engine. */
  lemma EditModeTickAdoptsEngineWrites(s: World, x: real, n: int)
    requires !s.engine.isPlaying
    ensures var s' := Update(Step(Step(s, EngineTimeScale(x)), EngineFrameRate(n)));
      && s'.window.currentTimeScale == x && s'.engine.timeScale == x
      && s'.window.currentFrameRate == n && s'.engine.targetFrameRate == n
  {
  }

  /** In edit mode the new target does not reach `currentTimeScale` at once:
      it arrives through the engine on the next Update. */
  lemma EditModeRetargetShowsOnNextUpdate(s: World, x: real)
    requires ValidTimeScale(x)
    requires !s.engine.isPlaying
    ensures SetTargetTimeScale(s, x).window.currentTimeScale == s.window.currentTimeScale
    ensures Update(SetTargetTimeScale(s, x)).window.currentTimeScale == x
  {
  }

  lemma SetTargetFrameRateIsAStep(s: World, n: int)
    requires ValidFrameRate(n)
    ensures var s', e := SetTargetFrameRate(s, n), s.engine;
      && s'.window.targetFrameRate == n
      && s'.window.currentFrameRate == s.window.currentFrameRate
      && s'.window.targetTimeScale == s.window.targetTimeScale
      && s'.window.currentTimeScale == s.window.currentTimeScale
      && s'.window.timeScaleOnTransitionStart == s.window.timeScaleOnTransitionStart
      && s'.window.transitionStartTime == s.window.transitionStartTime
      && s'.engine.targetFrameRate == (if e.isPlaying then e.targetFrameRate else n)
      && s'.engine.timeScale == e.timeScale
      && s'.engine.isPlaying == e.isPlaying
      && s'.engine.timeSinceStartup == e.timeSinceStartup
  {
  }

  /** Frame rate is never interpolated: the next Update shows the new target,
      in either mode, with no intermediate value. */
  lemma FrameRateShowsOnNextUpdate(s: World, n: int)
    requires ValidFrameRate(n)
    ensures Update(SetTargetFrameRate(s, n)).window.currentFrameRate == n
    ensures Update(SetTargetFrameRate(s, n)).engine.targetFrameRate == n
  {
  }

  // ---------------------------------------------------------------------------
  // Sequences of events

  /** What can happen between two observations: one of the window's four
      operations; the host moving its clock forward or entering or leaving
      play mode; or other code (a game script, the project settings) writing
      the engine's time scale or frame rate directly. */
  datatype Event =
    | Enable
    | Tick
    | Retarget(timeScale: real)
    | RetargetFrameRate(frameRate: int)
    | ClockAdvance(seconds: real)
    | PlayMode(playing: bool)
    | EngineTimeScale(written: real)
    | EngineFrameRate(writtenRate: int)

  /** The sliders keep targets in range, and the host's clock never runs backwards. */
  predicate Admissible(ev: Event) {
    match ev
    case Retarget(x) => ValidTimeScale(x)
    case RetargetFrameRate(n) => ValidFrameRate(n)
    case ClockAdvance(dt) => 0.0 <= dt
    case _ => true
  }

  function Step(s: World, ev: Event): World
    requires Admissible(ev)
  {
    match ev
    case Enable => OnEnable(s)
    case Tick => Update(s)
    case Retarget(x) => SetTargetTimeScale(s, x)
    case RetargetFrameRate(n) => SetTargetFrameRate(s, n)
    case ClockAdvance(dt) => s.(engine := s.engine.(timeSinceStartup := s.engine.timeSinceStartup + dt))
    case PlayMode(b) => s.(engine := s.engine.(isPlaying := b))
    case EngineTimeScale(x) => s.(engine := s.engine.(timeScale := x))
    case EngineFrameRate(n) => s.(engine := s.engine.(targetFrameRate := n))
  }

  function Run(s: World, events: seq<Event>): World
    requires forall ev :: ev in events ==> Admissible(ev)
    decreases |events|
  {
    if events == [] then s
    else
      var prefix := events[..|events| - 1];
      assert forall ev :: ev in prefix ==> ev in events;
      Step(Run(s, prefix), events[|events| - 1])
  }

  /** The transition has run its full duration. */
  predicate Settled(s: World) {
    s.window.transitionStartTime + TransitionDuration <= s.engine.timeSinceStartup
  }

  /** Once a transition has run its course, it stays there: as long as no new
      target time scale is set and the window is not re-enabled, every later
      play-mode Update lands exactly on the target, whatever else happens in
      between (ticks, frame-rate changes, clock advances, play-mode changes,
      other code writing the engine's time scale or frame rate). */
  lemma {:induction false} SettledStaysAtTarget(s: World, events: seq<Event>)
    requires forall ev :: ev in events ==> Admissible(ev) && !ev.Retarget? && !ev.Enable?
    requires Settled(s)
    ensures var s' := Run(s, events);
      && Settled(s')
      && s'.window.targetTimeScale == s.window.targetTimeScale
      && s'.window.timeScaleOnTransitionStart == s.window.timeScaleOnTransitionStart
      && s'.window.transitionStartTime == s.window.transitionStartTime
    ensures Run(s, events).engine.isPlaying ==>
      Update(Run(s, events)).window.currentTimeScale == s.window.targetTimeScale
  {
    if events != [] {
      var prefix := events[..|events| - 1];
      assert forall ev :: ev in prefix ==> ev in events;
      SettledStaysAtTarget(s, prefix);
    }
    var s' := Run(s, events);
    if s'.engine.isPlaying {
      UpdateReachesTarget(s');
    }
  }

  /** A worked session: in edit mode at time scale 1, set 0 (the engine takes
      it at once, the window on its next Update), enter play mode, set 2, and
      sample a quarter and a half second later. */
  lemma EditThenPlayScenario(s: World, start: real)
    requires !s.engine.isPlaying && s.engine.timeScale == 1.0
    ensures var s1 := SetTargetTimeScale(OnEnable(s), 0.0);
      && s1.window.currentTimeScale == 1.0
      && s1.engine.timeScale == 0.0
    ensures var s2 := Update(SetTargetTimeScale(OnEnable(s), 0.0));
      && s2.window.currentTimeScale == 0.0
    ensures var s2 := Update(SetTargetTimeScale(OnEnable(s), 0.0));
      var s3 := SetTargetTimeScale(s2.(engine := s2.engine.(isPlaying := true, timeSinceStartup := start)), 2.0);
      && Update(s3.(engine := s3.engine.(timeSinceStartup := start + 0.25))).window.currentTimeScale == 1.0
      && Update(s3.(engine := s3.engine.(timeSinceStartup := start + 0.5))).window.currentTimeScale == 2.0
  {
  }
}
