/** The particle field of `components/energy-particles.tsx`: fifty particles are made
    at mount, every animation frame ages and moves each one, removes those that have
    reached their lifetime and, while there are fewer than fifty, sometimes adds one.
    The random draws are parameters in [0, 1); the animation frames and the window's
    resize events are events. The drawing itself is not modelled. */
module EnergyParticles {
  import opened Seqs

  datatype Particle = Particle(x: real, y: real, vx: real, vy: real, life: int, maxLife: real, color: string, size: real)

  /** The seven draws one `createParticle` call makes, in the order it makes them. */
  datatype Draws = Draws(x: real, y: real, vx: real, vy: real, maxLife: real, color: real, size: real)

  const Colors: seq<string> := ["#00ffff", "#ff1493", "#8a2be2", "#00ff00", "#ffa500"]
  const Population: nat := 50
  const SpawnChance: real := 0.3

  predicate Unit(r: real)
  {
    0.0 <= r < 1.0
  }

  predicate UnitDraws(d: Draws)
  {
    Unit(d.x) && Unit(d.y) && Unit(d.vx) && Unit(d.vy) && Unit(d.maxLife) && Unit(d.color) && Unit(d.size)
  }

  /** `colors[Math.floor(Math.random() * colors.length)]`: always one of the five. */
  function PickColor(r: real): (c: string)
    requires Unit(r)
    ensures c in Colors
  {
    var k := (r * 5.0).Floor;
    assert 0 <= k < 5;
    Colors[k]
  }

  /** A particle as `createParticle` makes it on a `width` x `height` canvas. */
  function NewParticle(width: real, height: real, d: Draws): (p: Particle)
    requires UnitDraws(d) && width >= 0.0 && height >= 0.0
    ensures 0.0 <= p.x <= width && 0.0 <= p.y <= height
    ensures -1.0 <= p.vx < 1.0 && -1.0 <= p.vy < 1.0
    ensures p.life == 0 && 50.0 <= p.maxLife < 150.0
    ensures p.color in Colors && 1.0 <= p.size < 3.0
  {
    assert d.x * width <= width && d.y * height <= height;
    Particle(d.x * width, d.y * height, (d.vx - 0.5) * 2.0, (d.vy - 0.5) * 2.0, 0,
             d.maxLife * 100.0 + 50.0, PickColor(d.color), d.size * 2.0 + 1.0)
  }

  /** One frame's update of a particle: one frame older, moved by its velocity. */
  function Step(p: Particle): (q: Particle)
    ensures q.life == p.life + 1 && q.maxLife == p.maxLife
    ensures q.x - p.x == p.vx && q.y - p.y == p.vy
    ensures q.vx == p.vx && q.vy == p.vy && q.color == p.color && q.size == p.size
  {
    p.(life := p.life + 1, x := p.x + p.vx, y := p.y + p.vy)
  }

  /** A particle is kept unless `life >= maxLife`. */
  predicate Alive(p: Particle)
  {
    (p.life as real) < p.maxLife
  }

  /** `1 - life / maxLife`, the opacity a particle is drawn with: inside (0, 1] while it
      is alive, and not above zero on the frame it is removed. */
  function Alpha(p: Particle): (a: real)
    requires p.maxLife > 0.0
    ensures 0 <= p.life && Alive(p) ==> 0.0 < a <= 1.0
    ensures !Alive(p) ==> a <= 0.0
  {
    var f := (p.life as real) / p.maxLife;
    assert Alive(p) ==> f < 1.0;
    assert !Alive(p) ==> f >= 1.0;
    assert 0 <= p.life ==> f >= 0.0;
    1.0 - f
  }

  function Steps(s: seq<Particle>): (r: seq<Particle>)
    ensures |r| == |s|
    ensures forall k :: 0 <= k < |s| ==> r[k] == Step(s[k])
  {
    seq(|s|, (k: int) requires 0 <= k < |s| => Step(s[k]))
  }

  /** What the backward loop over the list leaves: every particle stepped, the dead ones
      dropped, the rest in their order. */
  function Survivors(s: seq<Particle>): seq<Particle>
  {
    Filter(Steps(s), Alive)
  }

  /** The survivors are exactly the stepped particles that are still alive, in order. */
  lemma SurvivorsMeaning(s: seq<Particle>)
    ensures |Survivors(s)| <= |s|
    ensures forall k :: 0 <= k < |Survivors(s)| ==> Alive(Survivors(s)[k]) && Survivors(s)[k] in Steps(s)
    ensures forall k :: 0 <= k < |s| && Alive(Step(s[k])) ==> Step(s[k]) in Survivors(s)
    ensures IsSubsequence(Survivors(s), Steps(s))
  {
    var stepped := Steps(s);
    FilterIsSubsequence(stepped, Alive);
    assert forall k :: 0 <= k < |s| && Alive(Step(s[k])) ==> Alive(stepped[k]);
  }

  /** The survivors of a list are those of its first particle followed by those of the rest. */
  lemma SurvivorsCons(s: seq<Particle>)
    requires |s| > 0
    ensures Survivors(s) == (if Alive(Step(s[0])) then [Step(s[0])] else []) + Survivors(s[1..])
  {
    assert Steps(s) == [Step(s[0])] + Steps(s[1..]);
    FilterAppend([Step(s[0])], Steps(s[1..]), Alive);
    assert [Step(s[0])][1..] == [];
  }

  /** One turn of the backward loop: with the particles from `i` on already processed,
      processing index `i - 1` extends the processed part by one. */
  lemma SpliceStep(start: seq<Particle>, i: nat, cur: seq<Particle>)
    requires 0 < i <= |start| && cur == start[..i] + Survivors(start[i..])
    ensures cur[i - 1] == start[i - 1]
    ensures var p := Step(start[i - 1]);
      (if Alive(p) then cur[i - 1 := p] else cur[..i - 1] + cur[i..]) ==
      start[..i - 1] + Survivors(start[i - 1..])
  {
    var j := i - 1;
    var pre, x, rest := start[..j], start[j], Survivors(start[i..]);
    assert start[..i] == pre + [x];
    assert start[j..][0] == x && start[j..][1..] == start[i..];
    SurvivorsCons(start[j..]);
    Splice(pre, x, rest, Step(x), Alive(Step(x)));
  }

  /** Replacing or cutting out the element between a prefix and a suffix. */
  lemma Splice<T>(pre: seq<T>, x: T, rest: seq<T>, y: T, keep: bool)
    ensures (pre + [x] + rest)[|pre|] == x
    ensures (if keep then (pre + [x] + rest)[|pre| := y] else (pre + [x] + rest)[..|pre|] + (pre + [x] + rest)[|pre| + 1..])
      == pre + ((if keep then [y] else []) + rest)
  {
    var s := pre + [x] + rest;
    assert s[..|pre|] == pre;
    assert s[|pre| + 1..] == rest;
    if keep {
      assert s[|pre| := y] == pre + ([y] + rest);
    } else {
      assert [] + rest == rest;
    }
  }

  /** A particle that is part of the field: aged from 0, not yet at its lifetime, which
      lies in [50, 150). */
  predicate Live(p: Particle)
  {
    0 <= p.life && Alive(p) && 50.0 <= p.maxLife < 150.0
  }

  /** A freshly made particle is live, and a live particle that survives a frame stays live. */
  lemma SurvivorsStayLive(s: seq<Particle>)
    requires forall k :: 0 <= k < |s| ==> Live(s[k])
    ensures forall k :: 0 <= k < |Survivors(s)| ==> Live(Survivors(s)[k])
  {
    SurvivorsMeaning(s);
    var r := Survivors(s);
    forall k | 0 <= k < |r|
      ensures Live(r[k])
    {
      var j :| 0 <= j < |s| && Steps(s)[j] == r[k];
      assert Live(s[j]);
    }
  }

  /** The particles just made at mount all survive the first frame. */
  lemma {:induction false} FreshParticlesSurvive(s: seq<Particle>)
    requires forall k :: 0 <= k < |s| ==> s[k].life == 0 && s[k].maxLife >= 50.0
    ensures Survivors(s) == Steps(s)
  {
    forall k | 0 <= k < |Steps(s)|
      ensures Alive(Steps(s)[k])
    {
      assert Steps(s)[k] == Step(s[k]);
    }
    FilterAll(Steps(s), Alive);
  }

  class Field {
    /** The canvas size, reset from the window on every resize. */
    var width: real
    var height: real
    var particles: seq<Particle>
    /** Whether the resize listener is attached. */
    var listening: bool

    ghost predicate Valid()
      reads this
    {
      width >= 0.0 && height >= 0.0 && |particles| <= Population &&
      forall k :: 0 <= k < |particles| ==> Live(particles[k])
    }

    /** Mounting sizes the canvas to the window and makes fifty particles. */
    constructor (width: real, height: real, draws: seq<Draws>)
      requires width >= 0.0 && height >= 0.0
      requires |draws| == Population && forall k :: 0 <= k < |draws| ==> UnitDraws(draws[k])
      ensures Valid() && listening
      ensures this.width == width && this.height == height
      ensures |particles| == Population
      ensures forall k :: 0 <= k < Population ==> particles[k] == NewParticle(width, height, draws[k])
    {
      this.width := width;
      this.height := height;
      listening := true;
      particles := [];
      new;
      for i := 0 to Population
        invariant this.width == width && this.height == height && listening
        invariant |particles| == i
        invariant forall k :: 0 <= k < i ==> particles[k] == NewParticle(width, height, draws[k])
        invariant Valid()
      {
        particles := particles + [NewParticle(width, height, draws[i])];
      }
    }

    /** One animation frame: the backward update loop, then a new particle when there
        are fewer than fifty and the draw `spawn` is below 0.3. */
    method Frame(spawn: real, d: Draws)
      requires Valid() && UnitDraws(d)
      modifies this
      ensures Valid()
      ensures var kept := Survivors(old(particles));
        particles == if |kept| < Population && spawn < SpawnChance
                     then kept + [NewParticle(width, height, d)] else kept
      ensures width == old(width) && height == old(height) && listening == old(listening)
    {
      ghost var start := particles;
      var i := |particles|;
      while i > 0
        invariant 0 <= i <= |start|
        invariant particles == start[..i] + Survivors(start[i..])
        invariant width == old(width) && height == old(height) && listening == old(listening)
      {
        SpliceStep(start, i, particles);
        i := i - 1;
        var p := Step(particles[i]);
        if (p.life as real) >= p.maxLife {
          particles := particles[..i] + particles[i + 1..];
        } else {
          particles := particles[i := p];
        }
      }
      assert start[..0] == [] && start[0..] == start;
      SurvivorsStayLive(start);
      if |particles| < Population && spawn < SpawnChance {
        particles := particles + [NewParticle(width, height, d)];
      }
    }

    method Resize(width: real, height: real)
      requires Valid() && width >= 0.0 && height >= 0.0
      modifies this
      ensures Valid()
      ensures this.width == width && this.height == height
      ensures particles == old(particles) && listening == old(listening)
    {
      this.width := width;
      this.height := height;
    }

    /** Unmounting detaches the resize listener only: the animation frames are never
        cancelled and go on updating the field. */
    method Unmount()
      modifies this
      ensures !listening
      ensures width == old(width) && height == old(height) && particles == old(particles)
    {
      listening := false;
    }
  }

  /** The first frame after mounting keeps all fifty particles, so it adds none, whatever
      the spawn draw. */
  method FirstFrameKeepsFifty(width: real, height: real, draws: seq<Draws>, spawn: real, d: Draws)
    returns (count: nat, ages: seq<int>)
    requires width >= 0.0 && height >= 0.0 && UnitDraws(d)
    requires |draws| == Population && forall k :: 0 <= k < |draws| ==> UnitDraws(draws[k])
    ensures count == Population
    ensures ages == seq(Population, (k: int) => 1)
  {
    var f := new Field(width, height, draws);
    FreshParticlesSurvive(f.particles);
    f.Frame(spawn, d);
    count := |f.particles|;
    ages := seq(|f.particles|, (k: int) requires 0 <= k < |f.particles| reads f => f.particles[k].life);
  }

  /** After unmounting the frames still run: the field keeps changing. */
  method FramesOutliveUnmount(width: real, height: real, draws: seq<Draws>, d: Draws)
    returns (listening: bool, ages: seq<int>)
    requires width >= 0.0 && height >= 0.0 && UnitDraws(d)
    requires |draws| == Population && forall k :: 0 <= k < |draws| ==> UnitDraws(draws[k])
    ensures !listening && |ages| == Population
    ensures forall k :: 0 <= k < |ages| ==> ages[k] == 1
  {
    var f := new Field(width, height, draws);
    f.Unmount();
    FreshParticlesSurvive(f.particles);
    f.Frame(0.0, d);
    listening := f.listening;
    ages := seq(|f.particles|, (k: int) requires 0 <= k < |f.particles| reads f => f.particles[k].life);
  }
}
