/** The drill-down page of `app/universe/page.tsx`: galaxies, then one galaxy's solar
    systems, then one system's planets with their images. A `galaxy` query parameter
    preselects a galaxy; clicking an image starts the fly-in transition and its end
    navigates to the viewer. The router is modelled by the list of pushed URLs. */
module UniversePage {
  import opened Seqs
  import opened Text
  import opened Urls
  import opened UniverseData

  /** The four query pairs of a viewer or compare link. */
  function IdParams(galaxyId: string, systemId: string, planetId: string, imageId: string): seq<Param>
  {
    [("galaxy", galaxyId), ("system", systemId), ("planet", planetId), ("image", imageId)]
  }

  lemma IdKeysDistinct(galaxyId: string, systemId: string, planetId: string, imageId: string)
    ensures var ps := IdParams(galaxyId, systemId, planetId, imageId);
      forall a, b :: 0 <= a < b < |ps| ==> ps[a].0 != ps[b].0
  {
    assert "galaxy"[0] != "system"[0] && "galaxy"[0] != "planet"[0] && "galaxy"[0] != "image"[0];
    assert "system"[0] != "planet"[0] && "system"[0] != "image"[0] && "planet"[0] != "image"[0];
  }

  lemma IdParamsPlain(galaxyId: string, systemId: string, planetId: string, imageId: string)
    requires Plain(galaxyId) && Plain(systemId) && Plain(planetId) && Plain(imageId)
    ensures PlainParams(IdParams(galaxyId, systemId, planetId, imageId))
  {
    assert Plain("galaxy") && Plain("system") && Plain("planet") && Plain("image");
  }

  /** The link an image button navigates to,
      `/viewer?galaxy=${g}&system=${s}&planet=${p}&image=${i}`. */
  function ViewerUrl(galaxyId: string, systemId: string, planetId: string, imageId: string): string
  {
    WithQuery("/viewer", IdParams(galaxyId, systemId, planetId, imageId))
  }

  /** A page opened by such a link, whatever its path, reads back each of the four ids
      it was built with. */
  lemma IdsReadBack(path: string, galaxyId: string, systemId: string, planetId: string, imageId: string)
    requires '?' !in path
    requires Plain(galaxyId) && Plain(systemId) && Plain(planetId) && Plain(imageId)
    ensures var url := WithQuery(path, IdParams(galaxyId, systemId, planetId, imageId));
      GetParam(url, "galaxy") == Some(galaxyId) && GetParam(url, "system") == Some(systemId) &&
      GetParam(url, "planet") == Some(planetId) && GetParam(url, "image") == Some(imageId)
  {
    var ps := IdParams(galaxyId, systemId, planetId, imageId);
    IdKeysDistinct(galaxyId, systemId, planetId, imageId);
    IdParamsPlain(galaxyId, systemId, planetId, imageId);
    QueryReadsBack(path, ps);
    assert ps[0].0 == "galaxy" && ps[1].0 == "system" && ps[2].0 == "planet" && ps[3].0 == "image";
  }

  lemma ViewerUrlReadsBack(galaxyId: string, systemId: string, planetId: string, imageId: string)
    requires Plain(galaxyId) && Plain(systemId) && Plain(planetId) && Plain(imageId)
    ensures var url := ViewerUrl(galaxyId, systemId, planetId, imageId);
      GetParam(url, "galaxy") == Some(galaxyId) && GetParam(url, "system") == Some(systemId) &&
      GetParam(url, "planet") == Some(planetId) && GetParam(url, "image") == Some(imageId)
  {
    IdsReadBack("/viewer", galaxyId, systemId, planetId, imageId);
  }

  // Every id in the catalog can be put in a link as it is.

  lemma GalaxyIdPlain(g: nat)
    requires g < |Universe|
    ensures Plain(Universe[g].id)
  {
    GalaxyIdAt(g);
    TableGalaxyIdsPlain(g);
  }

  lemma SystemIdPlain(g: nat, s: nat)
    requires g < |Universe| && s < |Universe[g].solarSystems|
    ensures Plain(Universe[g].solarSystems[s].id)
  {
    SystemIdAt(g, s);
    TableSystemIdsPlain(g, s);
  }

  lemma PlanetIdPlain(g: nat, s: nat, p: nat)
    requires g < |Universe| && s < |Universe[g].solarSystems| && p < |Universe[g].solarSystems[s].planets|
    ensures Plain(Universe[g].solarSystems[s].planets[p].id)
  {
    PlanetIdAt(g, s, p);
    TablePlanetIdsPlain(g, s, p);
  }

  /** The galaxy, system and planet ids of the catalog, laid out as the catalog nests them. */
  const GalaxyIdTable: seq<string> := ["milky-way", "andromeda", "deep-space"]
  const SystemIdTable: seq<seq<string>> := [["sol", "alpha-centauri"], ["andromeda-core"], ["hubble-deep-field"]]
  const PlanetIdTable: seq<seq<seq<string>>> := [[["earth", "moon", "mars"], ["proxima-b"]], [["andromeda-view"]], [["deep-field"]]]

  lemma GalaxyIdAt(g: nat)
    requires g < |Universe|
    ensures g < |GalaxyIdTable| && Universe[g].id == GalaxyIdTable[g]
  {
  }

  lemma SystemIdAt(g: nat, s: nat)
    requires g < |Universe| && s < |Universe[g].solarSystems|
    ensures g < |SystemIdTable| && s < |SystemIdTable[g]|
    ensures Universe[g].solarSystems[s].id == SystemIdTable[g][s]
  {
  }

  lemma PlanetIdAt(g: nat, s: nat, p: nat)
    requires g < |Universe| && s < |Universe[g].solarSystems| && p < |Universe[g].solarSystems[s].planets|
    ensures g < |PlanetIdTable| && s < |PlanetIdTable[g]| && p < |PlanetIdTable[g][s]|
    ensures Universe[g].solarSystems[s].planets[p].id == PlanetIdTable[g][s][p]
  {
  }

  lemma TableGalaxyIdsPlain(g: nat)
    requires g < |GalaxyIdTable|
    ensures Plain(GalaxyIdTable[g])
  {
    assert Plain("milky-way") && Plain("andromeda") && Plain("deep-space");
  }

  lemma TableSystemIdsPlain(g: nat, s: nat)
    requires g < |SystemIdTable| && s < |SystemIdTable[g]|
    ensures Plain(SystemIdTable[g][s])
  {
    assert Plain("sol") && Plain("alpha-centauri") && Plain("andromeda-core") && Plain("hubble-deep-field");
  }

  lemma TablePlanetIdsPlain(g: nat, s: nat, p: nat)
    requires g < |PlanetIdTable| && s < |PlanetIdTable[g]| && p < |PlanetIdTable[g][s]|
    ensures Plain(PlanetIdTable[g][s][p])
  {
    assert Plain("earth") && Plain("moon") && Plain("mars") && Plain("proxima-b");
    assert Plain("andromeda-view") && Plain("deep-field");
  }

  lemma ImageIdPlain(g: nat, s: nat, p: nat, i: nat)
    requires g < |Universe| && s < |Universe[g].solarSystems| && p < |Universe[g].solarSystems[s].planets|
    requires i < |Universe[g].solarSystems[s].planets[p].images|
    ensures Plain(Universe[g].solarSystems[s].planets[p].images[i].id)
  {
    ImageIdAt(g, s, p, i);
    TableIdsPlain(g, s, p, i);
  }

  /** The image ids of the catalog, laid out by galaxy, system and planet. */
  const ImageIdTable: seq<seq<seq<seq<string>>>> := [
    [[["earth-1", "earth-2"], ["moon-1"], ["mars-1"]], [["proxima-1"]]],
    [[["andromeda-1"]]],
    [[["hubble-1"]]]
  ]

  lemma ImageIdAt(g: nat, s: nat, p: nat, i: nat)
    requires g < |Universe| && s < |Universe[g].solarSystems| && p < |Universe[g].solarSystems[s].planets|
    requires i < |Universe[g].solarSystems[s].planets[p].images|
    ensures g < |ImageIdTable| && s < |ImageIdTable[g]| && p < |ImageIdTable[g][s]| && i < |ImageIdTable[g][s][p]|
    ensures Universe[g].solarSystems[s].planets[p].images[i].id == ImageIdTable[g][s][p][i]
  {
  }

  lemma TableIdsPlain(g: nat, s: nat, p: nat, i: nat)
    requires g < |ImageIdTable| && s < |ImageIdTable[g]| && p < |ImageIdTable[g][s]| && i < |ImageIdTable[g][s][p]|
    ensures Plain(ImageIdTable[g][s][p][i])
  {
    assert Plain("earth-1") && Plain("earth-2") && Plain("moon-1") && Plain("mars-1");
    assert Plain("proxima-1") && Plain("andromeda-1") && Plain("hubble-1");
  }

  /** The link of any image button of the catalog reads back as the path to that image. */
  lemma CatalogLinkReadsBack(g: nat, s: nat, p: nat, i: nat)
    requires g < |Universe| && s < |Universe[g].solarSystems|
    requires p < |Universe[g].solarSystems[s].planets| && i < |Universe[g].solarSystems[s].planets[p].images|
    ensures var galaxy := Universe[g];
      var system := galaxy.solarSystems[s];
      var planet := system.planets[p];
      var url := ViewerUrl(galaxy.id, system.id, planet.id, planet.images[i].id);
      GetParam(url, "galaxy") == Some(galaxy.id) && GetParam(url, "system") == Some(system.id) &&
      GetParam(url, "planet") == Some(planet.id) && GetParam(url, "image") == Some(planet.images[i].id)
  {
    GalaxyIdPlain(g);
    SystemIdPlain(g, s);
    PlanetIdPlain(g, s, p);
    ImageIdPlain(g, s, p, i);
    var planet := Universe[g].solarSystems[s].planets[p];
    ViewerUrlReadsBack(Universe[g].id, Universe[g].solarSystems[s].id, planet.id, planet.images[i].id);
  }

  /** Which of the three grids is shown. */
  datatype View = Galaxies | Systems(galaxy: Galaxy) | Planets(galaxy: Galaxy, system: SolarSystem)

  class Page {
    var selectedGalaxy: Option<Galaxy>
    var selectedSystem: Option<SolarSystem>
    var transitionActive: bool
    var targetUrl: string
    /** `searchParams.get("galaxy")`. */
    const galaxyParam: Option<string>
    /** The URLs handed to `router.push`, oldest first. */
    var pushed: seq<string>

    /** A system is only ever selected inside the selected galaxy, and both come from the catalog. */
    ghost predicate Valid()
      reads this
    {
      (selectedGalaxy.Some? ==> selectedGalaxy.value in Universe) &&
      (selectedSystem.Some? ==> selectedGalaxy.Some? && selectedSystem.value in selectedGalaxy.value.solarSystems)
    }

    constructor (galaxyParam: Option<string>)
      ensures Valid()
      ensures this.galaxyParam == galaxyParam && selectedGalaxy == None && selectedSystem == None
      ensures !transitionActive && targetUrl == "" && pushed == []
    {
      this.galaxyParam := galaxyParam;
      selectedGalaxy := None;
      selectedSystem := None;
      transitionActive := false;
      targetUrl := "";
      pushed := [];
    }

    /** The galaxy grid shows without a galaxy, the system grid with a galaxy but no
        system, the planet grid with both. */
    function CurrentView(): (v: View)
      reads this
      requires Valid()
      ensures v.Galaxies? <==> selectedGalaxy.None?
      ensures v.Systems? <==> selectedGalaxy.Some? && selectedSystem.None?
      ensures v.Planets? <==> selectedSystem.Some?
    {
      match (selectedGalaxy, selectedSystem)
      case (None, _) => Galaxies
      case (Some(g), None) => Systems(g)
      case (Some(g), Some(s)) => Planets(g, s)
    }

    /** The breadcrumb: "Universe", then the galaxy's name, then the system's name. */
    function Crumbs(): (c: seq<string>)
      reads this
      requires Valid()
      ensures |c| >= 1 && c[0] == "Universe"
      ensures |c| == 1 + (if selectedGalaxy.Some? then 1 else 0) + (if selectedSystem.Some? then 1 else 0)
      ensures selectedGalaxy.Some? ==> c[1] == selectedGalaxy.value.name
      ensures selectedSystem.Some? ==> c[2] == selectedSystem.value.name
    {
      ["Universe"]
        + (if selectedGalaxy.Some? then [selectedGalaxy.value.name] else [])
        + (if selectedSystem.Some? then [selectedSystem.value.name] else [])
    }

    /** The preselection effect, run after mounting and whenever `selectedGalaxy`
        changes: a non-empty parameter naming a catalog galaxy is selected while no
        galaxy is. */
    method RunUrlEffect()
      requires Valid()
      modifies this
      ensures Valid()
      ensures (galaxyParam.Some? && galaxyParam.value != "" && old(selectedGalaxy).None? && GetGalaxy(galaxyParam.value).Some?)
        ==> selectedGalaxy == GetGalaxy(galaxyParam.value)
      ensures !(galaxyParam.Some? && galaxyParam.value != "" && old(selectedGalaxy).None? && GetGalaxy(galaxyParam.value).Some?)
        ==> selectedGalaxy == old(selectedGalaxy)
      ensures selectedSystem == old(selectedSystem) && transitionActive == old(transitionActive)
      ensures targetUrl == old(targetUrl) && pushed == old(pushed)
    {
      if galaxyParam.Some? && galaxyParam.value != "" && selectedGalaxy.None? {
        var galaxy := Find(Universe, (g: Galaxy) => g.id == galaxyParam.value);
        if galaxy.Some? {
          selectedGalaxy := galaxy;
        }
      }
    }

    /** The "Universe" crumb. */
    method ClickUniverse()
      modifies this
      ensures Valid()
      ensures selectedGalaxy == None && selectedSystem == None
      ensures transitionActive == old(transitionActive) && targetUrl == old(targetUrl) && pushed == old(pushed)
    {
      selectedGalaxy := None;
      selectedSystem := None;
    }

    /** The galaxy crumb, shown only while a galaxy is selected. */
    method ClickGalaxyCrumb()
      requires Valid() && selectedGalaxy.Some?
      modifies this
      ensures Valid()
      ensures selectedSystem == None
      ensures selectedGalaxy == old(selectedGalaxy) && transitionActive == old(transitionActive)
      ensures targetUrl == old(targetUrl) && pushed == old(pushed)
    {
      selectedSystem := None;
    }

    /** The k-th card of the galaxy grid. */
    method SelectGalaxy(k: nat)
      requires Valid() && CurrentView().Galaxies? && k < |Universe|
      modifies this
      ensures Valid()
      ensures selectedGalaxy == Some(Universe[k]) && selectedSystem == None
      ensures transitionActive == old(transitionActive) && targetUrl == old(targetUrl) && pushed == old(pushed)
    {
      selectedGalaxy := Some(Universe[k]);
    }

    /** The k-th card of the system grid. */
    method SelectSystem(k: nat)
      requires Valid() && CurrentView().Systems? && k < |selectedGalaxy.value.solarSystems|
      modifies this
      ensures Valid()
      ensures selectedSystem == Some(old(selectedGalaxy).value.solarSystems[k])
      ensures selectedGalaxy == old(selectedGalaxy) && transitionActive == old(transitionActive)
      ensures targetUrl == old(targetUrl) && pushed == old(pushed)
    {
      selectedSystem := Some(selectedGalaxy.value.solarSystems[k]);
    }

    /** The i-th image button of the p-th planet card: remembers the viewer link for the
        shown galaxy, system, planet and image, and starts the transition. */
    method ImageClick(p: nat, i: nat)
      requires Valid() && CurrentView().Planets?
      requires p < |selectedSystem.value.planets| && i < |selectedSystem.value.planets[p].images|
      modifies this
      ensures Valid()
      ensures selectedGalaxy == old(selectedGalaxy) && selectedSystem == old(selectedSystem) && pushed == old(pushed)
      ensures var planet := selectedSystem.value.planets[p];
        targetUrl == ViewerUrl(selectedGalaxy.value.id, selectedSystem.value.id, planet.id, planet.images[i].id)
      ensures transitionActive
    {
      var planet := selectedSystem.value.planets[p];
      targetUrl := ViewerUrl(selectedGalaxy.value.id, selectedSystem.value.id, planet.id, planet.images[i].id);
      transitionActive := true;
    }

    /** The transition's `onComplete`: navigate to the remembered link. */
    method TransitionComplete()
      modifies this
      ensures pushed == old(pushed) + [old(targetUrl)]
      ensures selectedGalaxy == old(selectedGalaxy) && selectedSystem == old(selectedSystem)
      ensures transitionActive == old(transitionActive) && targetUrl == old(targetUrl)
    {
      pushed := pushed + [targetUrl];
    }
  }

  /** Arriving with `?galaxy=andromeda` opens that galaxy's systems; the "Universe"
      crumb then clears it, but the effect runs again on the change and selects it once
      more, so the galaxy grid cannot be reached while the parameter is in the URL. */
  method UniverseCrumbReturnsToGalaxy() returns (first: View, afterCrumb: View)
    ensures first == Systems(Andromeda) && afterCrumb == Systems(Andromeda)
  {
    var page := new Page(Some("andromeda"));
    assert GetGalaxy("andromeda") == Some(Andromeda) by {
      assert Universe[0].id != "andromeda" && Universe[1] == Andromeda;
    }
    page.RunUrlEffect();
    first := page.CurrentView();
    page.ClickUniverse();
    page.RunUrlEffect();
    afterCrumb := page.CurrentView();
  }

  /** Without a parameter the crumb does return to the galaxy grid. */
  method UniverseCrumbWithoutParam() returns (v: View)
    ensures v == Galaxies
  {
    var page := new Page(None);
    page.SelectGalaxy(0);
    page.SelectSystem(0);
    page.ClickUniverse();
    page.RunUrlEffect();
    v := page.CurrentView();
  }

  /** Galaxy, system, planet and image clicked in turn: the transition starts and its
      end pushes the viewer link for exactly that image. */
  method DrillDownToEarthAtNight() returns (active: bool, pushed: seq<string>)
    ensures active && |pushed| == 1
    ensures GetParam(pushed[0], "galaxy") == Some("milky-way") && GetParam(pushed[0], "system") == Some("sol")
    ensures GetParam(pushed[0], "planet") == Some("earth") && GetParam(pushed[0], "image") == Some("earth-2")
  {
    var page := new Page(None);
    page.SelectGalaxy(0);
    page.SelectSystem(0);
    page.ImageClick(0, 1);
    CatalogLinkReadsBack(0, 0, 0, 1);
    page.TransitionComplete();
    active, pushed := page.transitionActive, page.pushed;
  }
}
