/** The canvas scene of `components/space-scene.tsx`: four planets placed in proportion
    to the canvas, hover feedback and a click that reports the lower-cased name of the
    first planet under the pointer. Drawing is not modelled. */
module SpaceScene {
  import opened Seqs
  import opened Text
  import ImageViewer

  datatype ScenePlanet = ScenePlanet(name: string, x: real, y: real, radius: real, color: string, description: string)

  /** The planets for a canvas of the given size, in drawing and hit-testing order. */
  function Planets(width: real, height: real): (ps: seq<ScenePlanet>)
    ensures |ps| == 4
    ensures forall k :: 0 <= k < 4 ==> ps[k].radius > 0.0
  {
    [
      ScenePlanet("Earth", width * 0.25, height * 0.4, 60.0, "#4A90E2", "Explore our home planet"),
      ScenePlanet("Moon", width * 0.45, height * 0.6, 40.0, "#9CA3AF", "Lunar surface imagery"),
      ScenePlanet("Mars", width * 0.65, height * 0.45, 50.0, "#E74C3C", "The Red Planet"),
      ScenePlanet("Space", width * 0.85, height * 0.55, 45.0, "#9B59B6", "Deep space imagery")
    ]
  }

  /** `Math.sqrt(dx ** 2 + dy ** 2) < radius`, compared squared: for a positive radius
      the square root is below the radius exactly when its argument is below the square. */
  predicate Under(p: ScenePlanet, x: real, y: real)
  {
    (x - p.x) * (x - p.x) + (y - p.y) * (y - p.y) < p.radius * p.radius
  }

  function UnderPointer(x: real, y: real): ScenePlanet -> bool
  {
    (p: ScenePlanet) => Under(p, x, y)
  }

  /** `planets.find(...)`: the first planet under the point. */
  function HitTest(width: real, height: real, x: real, y: real): (hit: Option<ScenePlanet>)
    ensures hit.Some? ==> Under(hit.value, x, y)
    ensures hit.Some? ==>
      exists k :: 0 <= k < 4 && Planets(width, height)[k] == hit.value &&
        forall j :: 0 <= j < k ==> !Under(Planets(width, height)[j], x, y)
    ensures hit.None? <==> forall k :: 0 <= k < 4 ==> !Under(Planets(width, height)[k], x, y)
  {
    Find(Planets(width, height), UnderPointer(x, y))
  }

  /** Every centre is under its own planet. */
  lemma CentreIsUnder(p: ScenePlanet)
    requires p.radius > 0.0
    ensures Under(p, p.x, p.y)
  {
  }

  /** Clicking the Earth's centre always picks the Earth, which is tested first. */
  lemma EarthCentrePicksEarth(width: real, height: real)
    ensures var earth := Planets(width, height)[0];
      HitTest(width, height, earth.x, earth.y) == Some(earth)
  {
    CentreIsUnder(Planets(width, height)[0]);
  }

  /** On a canvas whose diagonal is under 300 pixels the Earth's disc covers the Moon's
      centre, and a click there picks the Earth instead. */
  lemma MoonCentrePicksMoonIff(width: real, height: real)
    ensures var moon := Planets(width, height)[1];
      HitTest(width, height, moon.x, moon.y) == Some(moon) <==> width * width + height * height >= 90000.0
  {
    var ps := Planets(width, height);
    var moon := ps[1];
    CentreIsUnder(moon);
    EarthCoversMoonCentre(width, height);
    assert ps[0] != moon by {
      assert ps[0].radius != moon.radius;
    }
  }

  /** The Moon's centre lies a fifth of the canvas diagonal from the Earth's, and the
      Earth's radius is 60. */
  lemma EarthCoversMoonCentre(width: real, height: real)
    ensures var ps := Planets(width, height);
      Under(ps[0], ps[1].x, ps[1].y) <==> width * width + height * height < 90000.0
  {
    var ps := Planets(width, height);
    var dx := ps[1].x - ps[0].x;
    var dy := ps[1].y - ps[0].y;
    assert dx == width * 0.2 && dy == height * 0.2;
    assert dx * dx + dy * dy == 0.04 * (width * width + height * height);
  }

  /** The names handed to `onPlanetSelect`, lower-cased. */
  lemma SelectableNames(width: real, height: real)
    ensures var ps := Planets(width, height);
      Lower(ps[0].name) == "earth" && Lower(ps[1].name) == "moon" &&
      Lower(ps[2].name) == "mars" && Lower(ps[3].name) == "space"
  {
    LowerEarth();
    LowerMoon();
    LowerMars();
    LowerSpace();
  }

  lemma LowerEarth()
    ensures Lower("Earth") == "earth"
  {
    var r := Lower("Earth");
    assert r[0] == 'e' && r[1] == 'a' && r[2] == 'r' && r[3] == 't' && r[4] == 'h';
  }

  lemma LowerMoon()
    ensures Lower("Moon") == "moon"
  {
    var r := Lower("Moon");
    assert r[0] == 'm' && r[1] == 'o' && r[2] == 'o' && r[3] == 'n';
  }

  lemma LowerMars()
    ensures Lower("Mars") == "mars"
  {
    var r := Lower("Mars");
    assert r[0] == 'm' && r[1] == 'a' && r[2] == 'r' && r[3] == 's';
  }

  lemma LowerSpace()
    ensures Lower("Space") == "space"
  {
    var r := Lower("Space");
    assert r[0] == 's' && r[1] == 'p' && r[2] == 'a' && r[3] == 'c' && r[4] == 'e';
  }

  /** Every name the scene can report is a dataset the image explorer shows. */
  lemma SelectionsAreDatasets(width: real, height: real, k: nat)
    requires k < 4
    ensures Lower(Planets(width, height)[k].name) in ImageViewer.DatasetImages
  {
    SelectableNames(width, height);
    var name := Lower(Planets(width, height)[k].name);
    assert name == "earth" || name == "moon" || name == "mars" || name == "space";
    DatasetNamed(name);
  }

  lemma DatasetNamed(name: string)
    requires name == "earth" || name == "moon" || name == "mars" || name == "space"
    ensures name in ImageViewer.DatasetImages
  {
  }

  class Scene {
    const width: real
    const height: real
    var mousePos: ImageViewer.Point
    var hovered: Option<ScenePlanet>
    var cursor: string
    /** The names passed to `onPlanetSelect`, oldest first. */
    var selections: seq<string>

    constructor (width: real, height: real)
      ensures this.width == width && this.height == height
      ensures mousePos == ImageViewer.Point(0.0, 0.0) && hovered == None && selections == []
      ensures cursor == "default"
    {
      this.width := width;
      this.height := height;
      mousePos := ImageViewer.Point(0.0, 0.0);
      hovered := None;
      cursor := "default";
      selections := [];
    }

    /** The tooltip appears beside the pointer while a planet is hovered. */
    function Tooltip(): (t: Option<(real, real, string)>)
      reads this
      ensures t.Some? <==> hovered.Some?
      ensures t.Some? ==> t.value == (mousePos.x + 20.0, mousePos.y - 40.0, hovered.value.name)
    {
      if hovered.Some? then Some((mousePos.x + 20.0, mousePos.y - 40.0, hovered.value.name)) else None
    }

    /** The pointer at client point (clientX, clientY) over a canvas whose box starts at (left, top). */
    method MouseMove(clientX: real, clientY: real, left: real, top: real)
      modifies this
      ensures mousePos == ImageViewer.Point(clientX - left, clientY - top)
      ensures hovered == HitTest(width, height, clientX - left, clientY - top)
      ensures cursor == (if hovered.Some? then "pointer" else "default")
      ensures selections == old(selections)
    {
      mousePos := ImageViewer.Point(clientX - left, clientY - top);
      hovered := HitTest(width, height, clientX - left, clientY - top);
      cursor := if hovered.Some? then "pointer" else "default";
    }

    /** A click reports the first planet under it, if any. */
    method Click(clientX: real, clientY: real, left: real, top: real)
      modifies this
      ensures var hit := HitTest(width, height, clientX - left, clientY - top);
        selections == old(selections) + (if hit.Some? then [Lower(hit.value.name)] else [])
      ensures mousePos == old(mousePos) && hovered == old(hovered) && cursor == old(cursor)
    {
      var clicked := HitTest(width, height, clientX - left, clientY - top);
      if clicked.Some? {
        selections := selections + [Lower(clicked.value.name)];
      }
    }
  }

  /** On a 1000 x 800 canvas a click on the Mars centre selects "mars". */
  method ClickMars() returns (selected: seq<string>, cursor: string)
    ensures selected == ["mars"] && cursor == "pointer"
  {
    var scene := new Scene(1000.0, 800.0);
    var ps := Planets(1000.0, 800.0);
    assert !Under(ps[0], 650.0, 360.0) && !Under(ps[1], 650.0, 360.0) && Under(ps[2], 650.0, 360.0);
    SelectableNames(1000.0, 800.0);
    scene.MouseMove(660.0, 370.0, 10.0, 10.0);
    scene.Click(660.0, 370.0, 10.0, 10.0);
    selected, cursor := scene.selections, scene.cursor;
  }
}
