/** The flare generator of `components/lens-flare.tsx`: each `createFlare` call adds a
    flare at random, drops the oldest when over the cap, schedules its own 3000 ms
    removal and schedules the next call after a random delay. Random draws are the
    parameters in [0, 1); the two kinds of timeout firing are events. */
module LensFlare {

  datatype Flare = Flare(x: real, y: real, opacity: real)

  predicate Unit(r: real)
  {
    0.0 <= r < 1.0
  }

  const RemoveAfter: nat := 3000

  /** A flare from three draws: position in percent, opacity in [0.2, 0.8). */
  function NewFlare(rx: real, ry: real, ro: real): (f: Flare)
    requires Unit(rx) && Unit(ry) && Unit(ro)
    ensures 0.0 <= f.x < 100.0 && 0.0 <= f.y < 100.0
    ensures 0.2 <= f.opacity < 0.8
  {
    Flare(rx * 100.0, ry * 100.0, ro * 0.6 + 0.2)
  }

  /** `Math.random() * (maxDelay - minDelay) + minDelay`. */
  function NextDelay(r: real, minDelay: real, maxDelay: real): (d: real)
    requires Unit(r)
    ensures minDelay <= maxDelay ==> minDelay <= d <= maxDelay
    ensures minDelay < maxDelay ==> d < maxDelay
  {
    var span := maxDelay - minDelay;
    assert span >= 0.0 ==> 0.0 <= r * span <= span;
    assert span > 0.0 ==> r * span < span;
    r * span + minDelay
  }

  /** The state updater: append, then `shift` once when the list is longer than the cap. */
  function Added(prev: seq<Flare>, f: Flare, maxFlares: int): (r: seq<Flare>)
    ensures |prev| + 1 > maxFlares ==> r == (prev + [f])[1..]
    ensures |prev| + 1 <= maxFlares ==> r == prev + [f]
    ensures |r| > 0 ==> r[|r| - 1] == f
  {
    var updated := prev + [f];
    if |updated| > maxFlares then updated[1..] else updated
  }

  /** `prev.slice(1)`, which is empty for an empty list. */
  function Removed(prev: seq<Flare>): (r: seq<Flare>)
    ensures |prev| > 0 ==> r == prev[1..]
    ensures |prev| == 0 ==> r == []
  {
    if |prev| > 0 then prev[1..] else []
  }

  function Max(a: int, b: int): int
  {
    if a < b then b else a
  }

  /** Adding never takes the list over the cap (or over nothing, for a cap that is not
      positive), and adds at most one flare. */
  lemma AddedStaysCapped(prev: seq<Flare>, f: Flare, maxFlares: int)
    requires |prev| <= Max(maxFlares, 0)
    ensures |Added(prev, f, maxFlares)| <= Max(maxFlares, 0)
    ensures |Added(prev, f, maxFlares)| <= |prev| + 1
  {
  }

  /** With a cap of zero or less, no flare ever stays on screen. */
  lemma NoCapNoFlares(prev: seq<Flare>, f: Flare, maxFlares: int)
    requires maxFlares <= 0 && prev == []
    ensures Added(prev, f, maxFlares) == []
  {
  }

  class Generator {
    const maxFlares: int
    const minDelay: real
    const maxDelay: real
    var flares: seq<Flare>
    /** Whether the next `createFlare` timeout is set. */
    var scheduled: bool
    /** The delay it was set with. */
    var nextDelay: real
    /** Removal timeouts set and not yet fired. */
    var pendingRemovals: nat

    ghost predicate Valid()
      reads this
    {
      |flares| <= Max(maxFlares, 0) && |flares| <= pendingRemovals
    }

    /** Mounting calls `createFlare` once with the first four draws. */
    constructor (maxFlares: int, minDelay: real, maxDelay: real, rx: real, ry: real, ro: real, rd: real)
      requires Unit(rx) && Unit(ry) && Unit(ro) && Unit(rd)
      ensures Valid()
      ensures this.maxFlares == maxFlares && this.minDelay == minDelay && this.maxDelay == maxDelay
      ensures flares == Added([], NewFlare(rx, ry, ro), maxFlares)
      ensures scheduled && nextDelay == NextDelay(rd, minDelay, maxDelay) && pendingRemovals == 1
    {
      this.maxFlares := maxFlares;
      this.minDelay := minDelay;
      this.maxDelay := maxDelay;
      flares := Added([], NewFlare(rx, ry, ro), maxFlares);
      scheduled := true;
      nextDelay := NextDelay(rd, minDelay, maxDelay);
      pendingRemovals := 1;
    }

    /** The scheduled `createFlare` timeout fires. */
    method CreateFlare(rx: real, ry: real, ro: real, rd: real)
      requires Valid() && scheduled
      requires Unit(rx) && Unit(ry) && Unit(ro) && Unit(rd)
      modifies this
      ensures Valid()
      ensures flares == Added(old(flares), NewFlare(rx, ry, ro), maxFlares)
      ensures scheduled && nextDelay == NextDelay(rd, minDelay, maxDelay)
      ensures pendingRemovals == old(pendingRemovals) + 1
    {
      AddedStaysCapped(flares, NewFlare(rx, ry, ro), maxFlares);
      flares := Added(flares, NewFlare(rx, ry, ro), maxFlares);
      pendingRemovals := pendingRemovals + 1;
      scheduled := true;
      nextDelay := NextDelay(rd, minDelay, maxDelay);
    }

    /** A removal timeout fires: the oldest flare goes, whichever flare set the timeout. */
    method RemovalFires()
      requires Valid() && pendingRemovals > 0
      modifies this
      ensures Valid()
      ensures flares == Removed(old(flares)) && pendingRemovals == old(pendingRemovals) - 1
      ensures scheduled == old(scheduled) && nextDelay == old(nextDelay)
    {
      flares := Removed(flares);
      pendingRemovals := pendingRemovals - 1;
    }

    /** Unmounting clears only the scheduling timeout; removals still pending go on. */
    method Unmount()
      modifies this
      ensures !scheduled
      ensures flares == old(flares) && pendingRemovals == old(pendingRemovals) && nextDelay == old(nextDelay)
    {
      scheduled := false;
    }

    /** After unmounting, the removal timeouts still pending fire one by one, and
        together they clear the screen: every flare shown has a removal behind it. */
    method Drain()
      requires Valid() && !scheduled
      modifies this
      ensures Valid() && !scheduled
      ensures flares == [] && pendingRemovals == 0 && nextDelay == old(nextDelay)
    {
      while pendingRemovals > 0
        invariant Valid() && !scheduled && nextDelay == old(nextDelay)
        decreases pendingRemovals
      {
        RemovalFires();
      }
    }
  }

  /** With a cap of one, a second flare pushes out the first, and the first flare's
      removal then takes away the second. */
  method RemovalTakesNewerFlare() returns (afterSecond: seq<Flare>, afterRemoval: seq<Flare>)
    ensures afterSecond == [NewFlare(0.5, 0.5, 0.5)]
    ensures afterRemoval == []
  {
    var g := new Generator(1, 3000.0, 6000.0, 0.1, 0.1, 0.1, 0.0);
    g.CreateFlare(0.5, 0.5, 0.5, 0.0);
    afterSecond := g.flares;
    g.RemovalFires();
    afterRemoval := g.flares;
  }

  /** After unmounting no new flare is created, but the pending removals still empty the list. */
  method UnmountDrains() returns (scheduled: bool, remaining: seq<Flare>)
    ensures !scheduled && remaining == []
  {
    var g := new Generator(5, 3000.0, 6000.0, 0.2, 0.4, 0.6, 0.8);
    g.CreateFlare(0.3, 0.3, 0.3, 0.5);
    g.CreateFlare(0.9, 0.1, 0.0, 0.5);
    g.Unmount();
    g.Drain();
    scheduled, remaining := g.scheduled, g.flares;
  }
}
