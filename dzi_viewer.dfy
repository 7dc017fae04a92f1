/** The control state of `components/dzi-viewer.tsx`. The OpenSeadragon viewer is
    represented only by the zoom and rotation the controls ask it for; fetching tiles,
    animating and clamping are the library's and are not modelled. Timer callbacks
    (the 50 ms progress interval, the 200 ms completion timeout) are events the
    caller fires. */
module DziViewer {
  import opened Seqs

  /** JavaScript's `%`: the remainder takes the sign of the dividend. */
  function JsRem(a: int, b: int): (r: int)
    requires b > 0
    ensures a >= 0 ==> 0 <= r < b
    ensures a < 0 ==> -b < r <= 0
    ensures a >= 0 ==> r == a % b
  {
    if a >= 0 then a % b else -((-a) % b)
  }

  /** `(getRotation() + 90) % 360`. */
  function Rotated(rotation: int): (r: int)
    ensures rotation >= -90 ==> 0 <= r < 360
    ensures 0 <= rotation < 270 ==> r == rotation + 90
    ensures rotation == 270 ==> r == 0
  {
    JsRem(rotation + 90, 360)
  }

  /** Four presses from any upright angle come back to it, visiting the other three. */
  lemma FourRotationsReturn(rotation: int)
    requires rotation in {0, 90, 180, 270}
    ensures Rotated(Rotated(Rotated(Rotated(rotation)))) == rotation
    ensures rotation == 0 ==> Rotated(0) == 90 && Rotated(90) == 180 && Rotated(180) == 270
  {
  }

  const ZoomFactor: real := 1.5

  /** What the viewport is asked to show. */
  datatype Viewport = Viewport(zoom: real, rotation: int)

  /** Zooming in and then out asks for the zoom one started from, and the other way round. */
  lemma ZoomInOutCancel(z: real)
    ensures (z * ZoomFactor) / ZoomFactor == z && (z / ZoomFactor) * ZoomFactor == z
  {
  }

  /** The demo's progress step: `(100 / duration) * interval` with a 2500 ms run and a
      50 ms interval. */
  const Duration: int := 2500
  const Interval: int := 50
  const Increment: int := 2

  lemma IncrementIsTheFormula()
    ensures (100.0 / Duration as real) * Interval as real == Increment as real
  {
  }

  /** The `setProgress` updater of one interval tick, and whether that tick stops the
      interval (and schedules the completion timeout). */
  function Tick(prev: int): (r: (int, bool))
    ensures r.1 <==> prev + Increment >= 100
    ensures r.1 ==> r.0 == 100
    ensures !r.1 ==> r.0 == prev + Increment
    ensures 0 <= prev <= 100 ==> 0 <= r.0 <= 100
  {
    var next := prev + Increment;
    if next >= 100 then (100, true) else (next, false)
  }

  class Viewer {
    /** The `viewer` state: None until OpenSeadragon has been set up. */
    var viewer: Option<Viewport>
    /** Viewers created and never destroyed: a new one for every `dziUrl`. */
    var liveViewers: nat
    var isLoading: bool
    var isModalOpen: bool
    var aiProcessing: bool
    var aiComplete: bool
    var progress: int
    /** Progress intervals still running (each demo start adds one). */
    var runningIntervals: nat
    /** Completion timeouts scheduled and not yet fired. */
    var pendingCompletions: nat

    ghost predicate Valid()
      reads this
    {
      0 <= progress <= 100 && progress % Increment == 0
    }

    constructor ()
      ensures Valid()
      ensures viewer == None && liveViewers == 0 && isLoading
      ensures !isModalOpen && !aiProcessing && !aiComplete && progress == 0
      ensures runningIntervals == 0 && pendingCompletions == 0
    {
      viewer := None;
      liveViewers := 0;
      isLoading := true;
      isModalOpen := false;
      aiProcessing := false;
      aiComplete := false;
      progress := 0;
      runningIntervals := 0;
      pendingCompletions := 0;
    }

    /** `initViewer` for a (new) `dziUrl`, with the viewport the library starts from. The
        cleanup it returns is dropped by the effect, so the previous viewer is never
        destroyed, and the loading flag is not raised again. */
    method InitViewer(start: Viewport)
      requires Valid()
      modifies this
      ensures Valid()
      ensures viewer == Some(start) && liveViewers == old(liveViewers) + 1
      ensures isLoading == old(isLoading) && isModalOpen == old(isModalOpen) && aiProcessing == old(aiProcessing)
      ensures aiComplete == old(aiComplete) && progress == old(progress)
      ensures runningIntervals == old(runningIntervals) && pendingCompletions == old(pendingCompletions)
    {
      viewer := Some(start);
      liveViewers := liveViewers + 1;
    }

    /** The "open" and "open-failed" handlers both end the loading state. */
    method Opened(failed: bool)
      requires Valid()
      modifies this
      ensures Valid() && !isLoading
      ensures viewer == old(viewer) && liveViewers == old(liveViewers) && isModalOpen == old(isModalOpen)
      ensures aiProcessing == old(aiProcessing) && aiComplete == old(aiComplete) && progress == old(progress)
      ensures runningIntervals == old(runningIntervals) && pendingCompletions == old(pendingCompletions)
    {
      isLoading := false;
    }

    method ZoomIn()
      requires Valid()
      modifies this
      ensures Valid()
      ensures old(viewer).None? ==> viewer == None
      ensures old(viewer).Some? ==> viewer == Some(old(viewer).value.(zoom := old(viewer).value.zoom * ZoomFactor))
      ensures liveViewers == old(liveViewers) && isLoading == old(isLoading) && isModalOpen == old(isModalOpen)
      ensures aiProcessing == old(aiProcessing) && aiComplete == old(aiComplete) && progress == old(progress)
      ensures runningIntervals == old(runningIntervals) && pendingCompletions == old(pendingCompletions)
    {
      if viewer.Some? {
        viewer := Some(viewer.value.(zoom := viewer.value.zoom * ZoomFactor));
      }
    }

    method ZoomOut()
      requires Valid()
      modifies this
      ensures Valid()
      ensures old(viewer).None? ==> viewer == None
      ensures old(viewer).Some? ==> viewer == Some(old(viewer).value.(zoom := old(viewer).value.zoom / ZoomFactor))
      ensures liveViewers == old(liveViewers) && isLoading == old(isLoading) && isModalOpen == old(isModalOpen)
      ensures aiProcessing == old(aiProcessing) && aiComplete == old(aiComplete) && progress == old(progress)
      ensures runningIntervals == old(runningIntervals) && pendingCompletions == old(pendingCompletions)
    {
      if viewer.Some? {
        viewer := Some(viewer.value.(zoom := viewer.value.zoom / ZoomFactor));
      }
    }

    method Rotate()
      requires Valid()
      modifies this
      ensures Valid()
      ensures old(viewer).None? ==> viewer == None
      ensures old(viewer).Some? ==> viewer == Some(old(viewer).value.(rotation := Rotated(old(viewer).value.rotation)))
      ensures liveViewers == old(liveViewers) && isLoading == old(isLoading) && isModalOpen == old(isModalOpen)
      ensures aiProcessing == old(aiProcessing) && aiComplete == old(aiComplete) && progress == old(progress)
      ensures runningIntervals == old(runningIntervals) && pendingCompletions == old(pendingCompletions)
    {
      if viewer.Some? {
        viewer := Some(viewer.value.(rotation := Rotated(viewer.value.rotation)));
      }
    }

    /** The wand button: open the dialog, restart the bar and start another interval
        (one already running is not stopped). */
    method StartDemo()
      requires Valid()
      modifies this
      ensures Valid()
      ensures isModalOpen && aiProcessing && !aiComplete && progress == 0
      ensures runningIntervals == old(runningIntervals) + 1 && pendingCompletions == old(pendingCompletions)
      ensures viewer == old(viewer) && liveViewers == old(liveViewers) && isLoading == old(isLoading)
    {
      isModalOpen := true;
      aiProcessing := true;
      aiComplete := false;
      progress := 0;
      runningIntervals := runningIntervals + 1;
    }

    /** One firing of a running interval. */
    method IntervalTick()
      requires Valid() && runningIntervals > 0
      modifies this
      ensures Valid()
      ensures progress == Tick(old(progress)).0
      ensures Tick(old(progress)).1 ==>
        runningIntervals == old(runningIntervals) - 1 && pendingCompletions == old(pendingCompletions) + 1
      ensures !Tick(old(progress)).1 ==>
        runningIntervals == old(runningIntervals) && pendingCompletions == old(pendingCompletions)
      ensures viewer == old(viewer) && liveViewers == old(liveViewers) && isLoading == old(isLoading)
      ensures isModalOpen == old(isModalOpen) && aiProcessing == old(aiProcessing) && aiComplete == old(aiComplete)
    {
      var (next, done) := Tick(progress);
      progress := next;
      if done {
        runningIntervals := runningIntervals - 1;
        pendingCompletions := pendingCompletions + 1;
      }
    }

    /** The 200 ms timeout after the bar is full. */
    method CompletionFires()
      requires Valid() && pendingCompletions > 0
      modifies this
      ensures Valid()
      ensures !aiProcessing && aiComplete && pendingCompletions == old(pendingCompletions) - 1
      ensures viewer == old(viewer) && liveViewers == old(liveViewers) && isLoading == old(isLoading)
      ensures isModalOpen == old(isModalOpen) && progress == old(progress) && runningIntervals == old(runningIntervals)
    {
      aiProcessing := false;
      aiComplete := true;
      pendingCompletions := pendingCompletions - 1;
    }

    /** Closing the dialog resets it; the timers keep running. */
    method CloseDialog()
      requires Valid()
      modifies this
      ensures Valid()
      ensures !isModalOpen && !aiProcessing && !aiComplete && progress == 0
      ensures runningIntervals == old(runningIntervals) && pendingCompletions == old(pendingCompletions)
      ensures viewer == old(viewer) && liveViewers == old(liveViewers) && isLoading == old(isLoading)
    {
      isModalOpen := false;
      aiProcessing := false;
      aiComplete := false;
      progress := 0;
    }

    /** Fires the only running interval `n` times; while it has not reached the end of the
        bar each firing adds two percent. */
    method TickTimes(n: nat)
      requires Valid() && runningIntervals == 1 && progress + n * Increment < 100
      modifies this
      ensures Valid()
      ensures progress == old(progress) + n * Increment
      ensures runningIntervals == 1 && pendingCompletions == old(pendingCompletions)
      ensures viewer == old(viewer) && liveViewers == old(liveViewers) && isLoading == old(isLoading)
      ensures isModalOpen == old(isModalOpen) && aiProcessing == old(aiProcessing) && aiComplete == old(aiComplete)
    {
      for i := 0 to n
        invariant Valid()
        invariant progress == old(progress) + i * Increment
        invariant runningIntervals == 1 && pendingCompletions == old(pendingCompletions)
        invariant viewer == old(viewer) && liveViewers == old(liveViewers) && isLoading == old(isLoading)
        invariant isModalOpen == old(isModalOpen) && aiProcessing == old(aiProcessing) && aiComplete == old(aiComplete)
      {
        IntervalTick();
      }
    }
  }

  /** A full demo: fifty ticks fill the bar to exactly 100 and stop the interval, and the
      completion timeout then marks the run complete. */
  method FullDemo() returns (afterTicks: int, stopped: bool, processing: bool, complete: bool)
    ensures afterTicks == 100 && stopped
    ensures !processing && complete
  {
    var v := new Viewer();
    v.StartDemo();
    v.TickTimes(49);
    v.IntervalTick();
    afterTicks, stopped := v.progress, v.runningIntervals == 0;
    v.CompletionFires();
    processing, complete := v.aiProcessing, v.aiComplete;
  }

  /** Closing the dialog part-way does not stop the interval: the bar starts again from 0,
      fills up, and the closed dialog is marked complete. */
  method CloseMidRunStillCompletes() returns (open: bool, complete: bool)
    ensures !open && complete
  {
    var v := new Viewer();
    v.StartDemo();
    v.TickTimes(10);
    v.CloseDialog();
    v.TickTimes(49);
    v.IntervalTick();
    v.CompletionFires();
    open, complete := v.isModalOpen, v.aiComplete;
  }

  /** Before a viewer exists every control is ignored. */
  method ControlsWithoutViewer() returns (viewer: Option<Viewport>)
    ensures viewer == None
  {
    var v := new Viewer();
    v.ZoomIn();
    v.Rotate();
    v.ZoomOut();
    viewer := v.viewer;
  }

  /** Switching images twice leaves three viewers alive, and the spinner is not shown
      again for the new images once the first has opened. */
  method SwitchImages(first: Viewport, second: Viewport, third: Viewport) returns (alive: nat, loading: bool)
    ensures alive == 3 && !loading
  {
    var v := new Viewer();
    v.InitViewer(first);
    v.Opened(false);
    v.InitViewer(second);
    v.InitViewer(third);
    alive, loading := v.liveViewers, v.isLoading;
  }
}
