// The editor window as the engine runs it: an object whose fields the
// callbacks update in place, and an engine object whose globals it reads and
// writes. Each method is proved to perform exactly the matching step of
// TimeScaleModel, so every lemma proved there holds of these methods.

module TimeScaleEditor {
  import opened Mathf
  import Model = TimeScaleModel

  /** The engine globals the window touches. The host moves the clock and the
      play-mode flag by assigning these fields directly. */
  class Engine {
    var timeScale: real
    var targetFrameRate: int
    var isPlaying: bool
    var timeSinceStartup: real

    constructor (timeScale: real, targetFrameRate: int, isPlaying: bool, timeSinceStartup: real)
      ensures State() == Model.EngineState(timeScale, targetFrameRate, isPlaying, timeSinceStartup)
    {
      this.timeScale := timeScale;
      this.targetFrameRate := targetFrameRate;
      this.isPlaying := isPlaying;
      this.timeSinceStartup := timeSinceStartup;
    }

    function State(): Model.EngineState
      reads this
    {
      Model.EngineState(timeScale, targetFrameRate, isPlaying, timeSinceStartup)
    }
  }

  class TimeScaleWindow {
    const engine: Engine

    var targetTimeScale: real
    var currentTimeScale: real
    var timeScaleOnTransitionStart: real
    var transitionStartTime: real
    var targetFrameRate: int
    var currentFrameRate: int

    function Window(): Model.WindowState
      reads this
    {
      Model.WindowState(targetTimeScale, currentTimeScale, timeScaleOnTransitionStart,
                        transitionStartTime, targetFrameRate, currentFrameRate)
    }

    function State(): Model.World
      reads this, engine
    {
      Model.World(Window(), engine.State())
    }

    /** The field initialisers; the engine is injected. */
    constructor (engine: Engine)
      ensures this.engine == engine
      ensures Window() == Model.InitialWindow
    {
      this.engine := engine;
      targetTimeScale := 1.0;
      currentTimeScale := 1.0;
      timeScaleOnTransitionStart := 0.0;
      transitionStartTime := 0.0;
      targetFrameRate := 60;
      currentFrameRate := 60;
    }

    method OnEnable()
      modifies this
      ensures State() == Model.OnEnable(old(State()))
      ensures targetTimeScale == currentTimeScale == timeScaleOnTransitionStart == engine.timeScale
      ensures targetFrameRate == currentFrameRate == engine.targetFrameRate
    {
      targetTimeScale := engine.timeScale;
      currentTimeScale := engine.timeScale;
      timeScaleOnTransitionStart := engine.timeScale;

      targetFrameRate := engine.targetFrameRate;
      currentFrameRate := engine.targetFrameRate;
    }

    method Update()
      modifies this, engine
      ensures State() == Model.Update(old(State()))
      ensures !old(engine.isPlaying) ==> unchanged(engine)
      ensures old(engine.isPlaying) ==>
        && Between(timeScaleOnTransitionStart, targetTimeScale, currentTimeScale)
        && engine.timeScale == currentTimeScale
        && engine.targetFrameRate == currentFrameRate == targetFrameRate
    {
      if !engine.isPlaying {
        currentTimeScale := engine.timeScale;
        currentFrameRate := engine.targetFrameRate;
        return;
      }

      var elapsed := engine.timeSinceStartup - transitionStartTime;
      var t := Clamp01(elapsed / Model.TransitionDuration);

      currentTimeScale := Lerp(timeScaleOnTransitionStart, targetTimeScale, t);
      engine.timeScale := currentTimeScale;

      if engine.targetFrameRate != targetFrameRate {
        engine.targetFrameRate := targetFrameRate;
      }
      currentFrameRate := engine.targetFrameRate;
    }

    method SetTargetTimeScale(newTarget: real)
      requires Model.ValidTimeScale(newTarget)
      modifies this, engine`timeScale
      ensures State() == Model.SetTargetTimeScale(old(State()), newTarget)
      ensures timeScaleOnTransitionStart == old(currentTimeScale) == currentTimeScale
      ensures engine.timeScale == if engine.isPlaying then old(engine.timeScale) else newTarget
    {
      targetTimeScale := newTarget;
      timeScaleOnTransitionStart := currentTimeScale;
      transitionStartTime := engine.timeSinceStartup;

      if !engine.isPlaying {
        engine.timeScale := targetTimeScale;
      }
    }

    method SetTargetFrameRate(newTarget: int)
      requires Model.ValidFrameRate(newTarget)
      modifies this`targetFrameRate, engine`targetFrameRate
      ensures State() == Model.SetTargetFrameRate(old(State()), newTarget)
      ensures engine.targetFrameRate == if engine.isPlaying then old(engine.targetFrameRate) else newTarget
    {
      targetFrameRate := newTarget;

      if !engine.isPlaying {
        engine.targetFrameRate := targetFrameRate;
      }
    }
  }
}
