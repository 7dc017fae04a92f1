/** The fly-in overlay of `components/spaceship-transition.tsx`: while active it shows
    an approach, then a warp, then an arrival, driven by a 1500 ms and a 3000 ms timeout
    that the activation effect starts and its cleanup cancels. The timeouts firing are
    events; each `onComplete` call is counted. */
module SpaceshipTransition {

  datatype Stage = Approach | Warp | Complete

  /** The status line under the ship. */
  function StatusText(stage: Stage): (text: string)
    ensures stage == Approach <==> text == "[ APPROACHING TARGET ]"
    ensures stage == Warp <==> text == "[ ENGAGING ZOOM DRIVE ]"
    ensures stage == Complete <==> text == "[ ARRIVAL COMPLETE ]"
  {
    match stage
    case Approach => "[ APPROACHING TARGET ]"
    case Warp => "[ ENGAGING ZOOM DRIVE ]"
    case Complete => "[ ARRIVAL COMPLETE ]"
  }

  const ApproachDelay: nat := 1500
  const WarpDelay: nat := 3000

  class Transition {
    var isActive: bool
    var stage: Stage
    /** The two timeouts of the current activation, until they fire or are cleared. */
    var approachPending: bool
    var warpPending: bool
    /** How many times `onComplete` has been called. */
    var completions: nat

    ghost predicate Valid()
      reads this
    {
      (approachPending || warpPending ==> isActive) && (approachPending ==> warpPending)
    }

    constructor (isActive: bool)
      ensures Valid()
      ensures this.isActive == isActive && stage == Approach && completions == 0
      ensures approachPending == isActive && warpPending == isActive
    {
      this.isActive := isActive;
      stage := Approach;
      approachPending := isActive;
      warpPending := isActive;
      completions := 0;
    }

    /** Nothing is drawn while inactive; warp lines only in the warp stage. */
    predicate Renders()
      reads this
    {
      isActive
    }

    predicate ShowsWarpLines()
      reads this
    {
      isActive && stage == Warp
    }

    /** A new `isActive` prop. When it changes, the effect's cleanup clears both timeouts
        and the effect runs again, starting both only when the new value is true. The
        stage is left as it was. The effect also re-runs when `onComplete` changes, and
        the universe page passes a new arrow function on every render, so a re-render
        while active restarts both timeouts; the case of an unchanged `isActive` below
        holds only while the page does not re-render. */
    method SetActive(active: bool)
      requires Valid()
      modifies this
      ensures Valid()
      ensures isActive == active && stage == old(stage) && completions == old(completions)
      ensures active != old(isActive) ==> approachPending == active && warpPending == active
      ensures active == old(isActive) ==> approachPending == old(approachPending) && warpPending == old(warpPending)
    {
      if active != isActive {
        isActive := active;
        approachPending := active;
        warpPending := active;
      }
    }

    /** The 1500 ms timeout. */
    method ApproachTimeout()
      requires Valid() && approachPending
      modifies this
      ensures Valid()
      ensures stage == Warp && !approachPending
      ensures isActive == old(isActive) && warpPending == old(warpPending) && completions == old(completions)
    {
      stage := Warp;
      approachPending := false;
    }

    /** The 3000 ms timeout, which fires after the 1500 ms one. */
    method WarpTimeout()
      requires Valid() && warpPending && !approachPending
      modifies this
      ensures Valid()
      ensures stage == Complete && !warpPending && completions == old(completions) + 1
      ensures isActive == old(isActive) && approachPending == old(approachPending)
    {
      stage := Complete;
      warpPending := false;
      completions := completions + 1;
    }
  }

  /** One activation left to run: warp at 1500 ms, arrival and a single `onComplete` at
      3000 ms, with the matching status lines. */
  method FullRun() returns (atStart: string, atWarp: string, atEnd: string, lines: bool, calls: nat)
    ensures atStart == "[ APPROACHING TARGET ]" && atWarp == "[ ENGAGING ZOOM DRIVE ]" && atEnd == "[ ARRIVAL COMPLETE ]"
    ensures lines && calls == 1
  {
    var t := new Transition(false);
    t.SetActive(true);
    atStart := StatusText(t.stage);
    t.ApproachTimeout();
    atWarp, lines := StatusText(t.stage), t.ShowsWarpLines();
    t.WarpTimeout();
    atEnd, calls := StatusText(t.stage), t.completions;
  }

  /** Deactivating mid-flight cancels the arrival: no timeout is left to call `onComplete`. */
  method CancelledRun() returns (pending: bool, calls: nat, shown: bool)
    ensures !pending && calls == 0 && !shown
  {
    var t := new Transition(false);
    t.SetActive(true);
    t.ApproachTimeout();
    t.SetActive(false);
    pending, calls, shown := t.approachPending || t.warpPending, t.completions, t.Renders();
  }

  /** A second activation starts from the stage the first one ended in: the overlay
      opens on "arrival complete" instead of "approaching". */
  method Reactivation() returns (text: string)
    ensures text == "[ ARRIVAL COMPLETE ]"
  {
    var t := new Transition(true);
    t.ApproachTimeout();
    t.WarpTimeout();
    t.SetActive(false);
    t.SetActive(true);
    text := StatusText(t.stage);
  }
}
