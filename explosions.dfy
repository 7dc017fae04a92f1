/** The background explosions of `components/explosions.tsx`: an interval every
    `3000 / frequency` ms draws a number and, when it exceeds 0.7, adds an explosion
    identified by the current time, whose own timeout removes every explosion with
    that id 1500 ms later. The clock and the draws are parameters, the interval
    ticks and the removal timeouts are events. */
module Explosions {
  import opened Seqs

  datatype Explosion = Explosion(id: int, x: real, y: real)

  const Threshold: real := 0.7
  const RemoveAfter: nat := 1500

  /** The interval's period for a positive `frequency`. */
  function Period(frequency: real): (p: real)
    requires frequency > 0.0
    ensures p > 0.0 && p * frequency == 3000.0
  {
    3000.0 / frequency
  }

  predicate Unit(r: real)
  {
    0.0 <= r < 1.0
  }

  /** An explosion at a random point of a `width` x `height` window, named by the time. */
  function NewExplosion(now: int, rx: real, ry: real, width: real, height: real): (e: Explosion)
    requires Unit(rx) && Unit(ry) && width >= 0.0 && height >= 0.0
    ensures e.id == now
    ensures 0.0 <= e.x <= width && (width > 0.0 ==> e.x < width)
    ensures 0.0 <= e.y <= height && (height > 0.0 ==> e.y < height)
  {
    assert rx * width <= width && (width > 0.0 ==> rx * width < width);
    assert ry * height <= height && (height > 0.0 ==> ry * height < height);
    Explosion(now, rx * width, ry * height)
  }

  /** The filter callback of the removal timeout. */
  function OtherThan(id: int): Explosion -> bool
  {
    (e: Explosion) => e.id != id
  }

  /** `prev.filter(exp => exp.id !== id)`: every explosion with that id goes, the rest
      stay in order. */
  function Without(explosions: seq<Explosion>, id: int): (r: seq<Explosion>)
    ensures forall k :: 0 <= k < |r| ==> r[k].id != id && r[k] in explosions
    ensures forall e :: e in explosions && e.id != id ==> e in r
    ensures IsSubsequence(r, explosions)
  {
    var r := Filter(explosions, OtherThan(id));
    FilterIsSubsequence(explosions, OtherThan(id));
    assert forall k :: 0 <= k < |r| ==> OtherThan(id)(r[k]);
    r
  }

  function RemoveAt<T>(s: seq<T>, k: nat): (r: seq<T>)
    requires k < |s|
    ensures |r| == |s| - 1
    ensures forall j :: 0 <= j < k ==> r[j] == s[j]
    ensures forall j :: k <= j < |r| ==> r[j] == s[j + 1]
  {
    s[..k] + s[k + 1..]
  }

  class Field {
    const frequency: real
    var explosions: seq<Explosion>
    /** The ids of the removal timeouts set and not yet fired, in the order they were set. */
    var pending: seq<int>
    var intervalRunning: bool

    /** Every explosion on screen has a removal timeout still to fire for its id. */
    ghost predicate Valid()
      reads this
    {
      forall k :: 0 <= k < |explosions| ==> explosions[k].id in pending
    }

    constructor (frequency: real)
      ensures Valid()
      ensures this.frequency == frequency && explosions == [] && pending == [] && intervalRunning
    {
      this.frequency := frequency;
      explosions := [];
      pending := [];
      intervalRunning := true;
    }

    /** One tick of the interval at time `now` with the draws `r` (the chance), `rx`
        and `ry` (the position), in a window of `width` x `height`. */
    method Tick(now: int, r: real, rx: real, ry: real, width: real, height: real)
      requires Valid() && intervalRunning
      requires Unit(rx) && Unit(ry) && width >= 0.0 && height >= 0.0
      modifies this
      ensures Valid() && intervalRunning
      ensures r > Threshold ==>
        explosions == old(explosions) + [NewExplosion(now, rx, ry, width, height)] &&
        pending == old(pending) + [now]
      ensures r <= Threshold ==> explosions == old(explosions) && pending == old(pending)
    {
      if r > Threshold {
        explosions := explosions + [NewExplosion(now, rx, ry, width, height)];
        pending := pending + [now];
      }
    }

    /** The `k`-th pending removal timeout fires. */
    method RemovalFires(k: nat)
      requires Valid() && k < |pending|
      modifies this
      ensures Valid()
      ensures explosions == Without(old(explosions), old(pending)[k])
      ensures pending == RemoveAt(old(pending), k)
      ensures intervalRunning == old(intervalRunning)
    {
      var id := pending[k];
      var before := explosions;
      explosions := Without(explosions, id);
      pending := RemoveAt(pending, k);
      forall j | 0 <= j < |explosions|
        ensures explosions[j].id in pending
      {
        var e := explosions[j];
        assert e in before && e.id != id;
        var i :| 0 <= i < |before| && before[i] == e;
        assert e.id in old(pending);
        var m :| 0 <= m < |old(pending)| && old(pending)[m] == e.id;
        assert m != k;
        if m < k {
          assert pending[m] == e.id;
        } else {
          assert pending[m - 1] == e.id;
        }
      }
    }

    /** Unmounting clears the interval; removal timeouts already set still fire. */
    method Unmount()
      modifies this
      ensures !intervalRunning
      ensures explosions == old(explosions) && pending == old(pending)
    {
      intervalRunning := false;
    }

    /** The removals still pending after unmounting fire, oldest first, and leave the
        screen empty. */
    method Drain()
      requires Valid()
      modifies this
      ensures Valid()
      ensures explosions == [] && pending == [] && intervalRunning == old(intervalRunning)
    {
      while |explosions| > 0 || |pending| > 0
        invariant Valid() && intervalRunning == old(intervalRunning)
        decreases |pending|
      {
        if |explosions| > 0 {
          assert explosions[0].id in pending;
        }
        RemovalFires(0);
      }
    }
  }

  /** Two explosions created in the same millisecond share an id: the first one's
      removal takes both away, and the second removal then finds nothing to remove.
      Two ticks of one interval fall in the same millisecond only when the period is
      below 1 ms, that is for a frequency above 3000, as here. */
  method SameMillisecondRemovedTogether(now: int) returns (afterFirst: seq<Explosion>, left: seq<int>)
    ensures afterFirst == [] && left == [now]
  {
    var f := new Field(4000.0);
    f.Tick(now, 0.9, 0.1, 0.2, 800.0, 600.0);
    f.Tick(now, 0.8, 0.5, 0.5, 800.0, 600.0);
    var a := NewExplosion(now, 0.1, 0.2, 800.0, 600.0);
    var b := NewExplosion(now, 0.5, 0.5, 800.0, 600.0);
    assert f.explosions == [a, b];
    f.RemovalFires(0);
    afterFirst, left := f.explosions, f.pending;
  }

  /** Explosions made at different times are removed one at a time, first in, first out. */
  method DistinctTimesRemovedSeparately(t1: int, t2: int) returns (afterFirst: seq<Explosion>)
    requires t1 != t2
    ensures afterFirst == [Explosion(t2, 400.0, 300.0)]
  {
    var f := new Field(2.0);
    f.Tick(t1, 0.9, 0.1, 0.2, 800.0, 600.0);
    f.Tick(t2, 0.95, 0.5, 0.5, 800.0, 600.0);
    var a := NewExplosion(t1, 0.1, 0.2, 800.0, 600.0);
    var b := NewExplosion(t2, 0.5, 0.5, 800.0, 600.0);
    assert f.explosions == [a] + [b];
    FilterAppend([a], [b], OtherThan(t1));
    assert [a][1..] == [] && [b][1..] == [];
    f.RemovalFires(0);
    afterFirst := f.explosions;
  }

  /** A draw of exactly 0.7, or below, adds nothing. */
  method LowDrawAddsNothing(now: int, r: real) returns (shown: seq<Explosion>)
    requires r <= Threshold
    ensures shown == []
  {
    var f := new Field(1.0);
    f.Tick(now, r, 0.5, 0.5, 100.0, 100.0);
    shown := f.explosions;
  }
}
