/** The catalog of `lib/universe-data.ts` (galaxies, their solar systems, planets and
    images) and its four find-first lookups. */
module UniverseData {
  import opened Seqs

  /** Optional planet facts; `habitabilityScore` is documented as a 0-100 scale. */
  datatype PlanetStatistics = PlanetStatistics(
    habitabilityScore: Option<int>,
    radius: Option<real>, mass: Option<real>, surfaceArea: Option<real>, gravity: Option<real>,
    dayLength: Option<real>, yearLength: Option<real>, distanceFromStar: Option<real>, escapeVelocity: Option<real>,
    averageTemperature: Option<real>, atmosphereComposition: Option<string>, surfacePressure: Option<real>,
    moons: Option<int>, kind: Option<string>)

  /** The records keep the fields the pages compute with; the descriptions, gradient
      classes, dates and missions, which are only displayed, are not carried. */
  datatype CelestialImage = CelestialImage(id: string, name: string, dziUrl: string, thumbnail: string)

  datatype Planet = Planet(
    id: string, name: string, color: string, images: seq<CelestialImage>, statistics: Option<PlanetStatistics>)

  datatype SolarSystem = SolarSystem(id: string, name: string, color: string, planets: seq<Planet>)

  datatype Galaxy = Galaxy(id: string, name: string, color: string, solarSystems: seq<SolarSystem>)

  const EarthBlueMarble: CelestialImage := CelestialImage(
    "earth-1", "Blue Marble 2012",
    "/dzi/earth/blue-marble.dzi",
    "https://images.unsplash.com/photo-1614730321146-b6fa6a46bcb4?w=400&h=400&fit=crop")

  const EarthAtNight: CelestialImage := CelestialImage(
    "earth-2", "Earth at Night",
    "/dzi/earth/night-lights.dzi",
    "https://images.unsplash.com/photo-1451187580459-43490279c0fa?w=400&h=400&fit=crop")

  const LunarSurface: CelestialImage := CelestialImage(
    "moon-1", "Lunar Surface",
    "/dzi/moon/surface.dzi",
    "https://static.vecteezy.com/system/resources/previews/060/630/706/non_2x/a-close-up-view-of-a-full-moon-isolated-on-transparent-background-showing-intricate-details-of-the-lunar-surface-free-png.png")

  const VallesMarineris: CelestialImage := CelestialImage(
    "mars-1", "Valles Marineris",
    "/dzi/mars/valles-marineris.dzi",
    "https://pngimg.com/d/mars_planet_PNG7.png")

  const ProximaConcept: CelestialImage := CelestialImage(
    "proxima-1", "Artist Concept",
    "/dzi/proxima/concept.dzi",
    "https://images.unsplash.com/photo-1614313913007-2b4ae8ce32d6?w=400&h=400&fit=crop")

  const AndromedaM31: CelestialImage := CelestialImage(
    "andromeda-1", "Andromeda Galaxy M31",
    "/dzi/andromeda/m31.dzi",
    "https://images.unsplash.com/photo-1543722530-d2c3201371e7?w=400&h=400&fit=crop")

  const HubbleUltraDeepField: CelestialImage := CelestialImage(
    "hubble-1", "Hubble Ultra Deep Field",
    "/dzi/hubble/ultra-deep-field.dzi",
    "https://images.unsplash.com/photo-1462331940025-496dfbfc7564?w=400&h=400&fit=crop")

  const EarthStatistics: PlanetStatistics := PlanetStatistics(
    habitabilityScore := Some(100),
    radius := Some(6371.0), mass := Some(1.0), surfaceArea := Some(510100000.0), gravity := Some(9.807),
    dayLength := Some(24.0), yearLength := Some(365.25), distanceFromStar := Some(1.0), escapeVelocity := Some(11.186),
    averageTemperature := Some(15.0), atmosphereComposition := Some("78% N\U{2082}, 21% O\U{2082}, 1% Ar, trace gases"), surfacePressure := Some(1.0),
    moons := Some(1), kind := Some("Terrestrial"))

  const MoonStatistics: PlanetStatistics := PlanetStatistics(
    habitabilityScore := Some(0),
    radius := Some(1737.0), mass := Some(0.0123), surfaceArea := Some(37900000.0), gravity := Some(1.62),
    dayLength := Some(708.7), yearLength := Some(27.3), distanceFromStar := Some(1.0), escapeVelocity := Some(2.38),
    averageTemperature := Some(-23.0), atmosphereComposition := Some("Trace amounts (virtually none)"), surfacePressure := Some(0.0000000003),
    moons := Some(0), kind := Some("Natural Satellite"))

  const MarsStatistics: PlanetStatistics := PlanetStatistics(
    habitabilityScore := Some(35),
    radius := Some(3389.0), mass := Some(0.107), surfaceArea := Some(144800000.0), gravity := Some(3.721),
    dayLength := Some(24.6), yearLength := Some(687.0), distanceFromStar := Some(1.524), escapeVelocity := Some(5.027),
    averageTemperature := Some(-63.0), atmosphereComposition := Some("95% CO\U{2082}, 3% N\U{2082}, 2% Ar"), surfacePressure := Some(0.006),
    moons := Some(2), kind := Some("Terrestrial"))

  const ProximaStatistics: PlanetStatistics := PlanetStatistics(
    habitabilityScore := Some(65),
    radius := Some(7160.0), mass := Some(1.27), surfaceArea := None, gravity := Some(11.0),
    dayLength := Some(264.0), yearLength := Some(11.2), distanceFromStar := Some(0.0485), escapeVelocity := None,
    averageTemperature := Some(-39.0), atmosphereComposition := None, surfacePressure := None,
    moons := None, kind := Some("Terrestrial (Exoplanet)"))

  const Earth: Planet := Planet(
    "earth", "Earth", "from-blue-500 to-green-500",
    [EarthBlueMarble, EarthAtNight], Some(EarthStatistics))

  const Moon: Planet := Planet(
    "moon", "Moon", "from-gray-400 to-gray-600",
    [LunarSurface], Some(MoonStatistics))

  const Mars: Planet := Planet(
    "mars", "Mars", "from-red-500 to-orange-600",
    [VallesMarineris], Some(MarsStatistics))

  const ProximaB: Planet := Planet(
    "proxima-b", "Proxima Centauri b", "from-teal-500 to-cyan-600",
    [ProximaConcept], Some(ProximaStatistics))

  const AndromedaView: Planet := Planet(
    "andromeda-view", "Andromeda Galaxy", "from-purple-500 to-pink-600",
    [AndromedaM31], None)

  const DeepField: Planet := Planet(
    "deep-field", "Ultra Deep Field", "from-indigo-500 to-violet-600",
    [HubbleUltraDeepField], None)

  const Sol: SolarSystem := SolarSystem(
    "sol", "Solar System", "from-yellow-400 to-orange-500",
    [Earth, Moon, Mars])

  const AlphaCentauri: SolarSystem := SolarSystem(
    "alpha-centauri", "Alpha Centauri", "from-orange-400 to-red-500",
    [ProximaB])

  const AndromedaCore: SolarSystem := SolarSystem(
    "andromeda-core", "Andromeda Core", "from-purple-400 to-pink-500",
    [AndromedaView])

  const HubbleDeepField: SolarSystem := SolarSystem(
    "hubble-deep-field", "Hubble Deep Field", "from-indigo-400 to-violet-500",
    [DeepField])

  const MilkyWay: Galaxy := Galaxy(
    "milky-way", "Milky Way", "from-blue-400 via-purple-500 to-pink-500",
    [Sol, AlphaCentauri])

  const Andromeda: Galaxy := Galaxy(
    "andromeda", "Andromeda", "from-purple-400 via-pink-500 to-rose-500",
    [AndromedaCore])

  const DeepSpace: Galaxy := Galaxy(
    "deep-space", "Deep Space", "from-indigo-400 via-violet-500 to-purple-600",
    [HubbleDeepField])


  /** `universeData` */
  const Universe: seq<Galaxy> := [MilkyWay, Andromeda, DeepSpace]

  /** `getGalaxy`: the first galaxy with that id, or none. */
  function GetGalaxy(galaxyId: string): (r: Option<Galaxy>)
    ensures r.None? <==> forall k :: 0 <= k < |Universe| ==> Universe[k].id != galaxyId
    ensures r.Some? ==> r.value.id == galaxyId
    ensures r.Some? ==> exists k :: 0 <= k < |Universe| && Universe[k] == r.value && (forall j :: 0 <= j < k ==> Universe[j].id != galaxyId)
  {
    Find(Universe, (g: Galaxy) => g.id == galaxyId)
  }

  /** `getSolarSystem`: nothing without the galaxy, else the first system of it with that id. */
  function GetSolarSystem(galaxyId: string, solarSystemId: string): (r: Option<SolarSystem>)
    ensures GetGalaxy(galaxyId).None? ==> r.None?
    ensures GetGalaxy(galaxyId).Some? ==> var systems := GetGalaxy(galaxyId).value.solarSystems;
      (r.None? <==> forall k :: 0 <= k < |systems| ==> systems[k].id != solarSystemId)
      && (r.Some? ==> (r.value.id == solarSystemId
            && exists k :: 0 <= k < |systems| && systems[k] == r.value && (forall j :: 0 <= j < k ==> systems[j].id != solarSystemId)))
  {
    match GetGalaxy(galaxyId)
    case None => None
    case Some(galaxy) => Find(galaxy.solarSystems, (s: SolarSystem) => s.id == solarSystemId)
  }

  /** `getPlanet`: nothing without the system, else the first planet of it with that id. */
  function GetPlanet(galaxyId: string, solarSystemId: string, planetId: string): (r: Option<Planet>)
    ensures GetSolarSystem(galaxyId, solarSystemId).None? ==> r.None?
    ensures GetSolarSystem(galaxyId, solarSystemId).Some? ==> var planets := GetSolarSystem(galaxyId, solarSystemId).value.planets;
      (r.None? <==> forall k :: 0 <= k < |planets| ==> planets[k].id != planetId)
      && (r.Some? ==> (r.value.id == planetId
            && exists k :: 0 <= k < |planets| && planets[k] == r.value && (forall j :: 0 <= j < k ==> planets[j].id != planetId)))
  {
    match GetSolarSystem(galaxyId, solarSystemId)
    case None => None
    case Some(system) => Find(system.planets, (p: Planet) => p.id == planetId)
  }

  /** `getImage`: nothing without the planet, else the first image of it with that id. */
  function GetImage(galaxyId: string, solarSystemId: string, planetId: string, imageId: string): (r: Option<CelestialImage>)
    ensures GetPlanet(galaxyId, solarSystemId, planetId).None? ==> r.None?
    ensures GetPlanet(galaxyId, solarSystemId, planetId).Some? ==> var images := GetPlanet(galaxyId, solarSystemId, planetId).value.images;
      (r.None? <==> forall k :: 0 <= k < |images| ==> images[k].id != imageId)
      && (r.Some? ==> (r.value.id == imageId
            && exists k :: 0 <= k < |images| && images[k] == r.value && (forall j :: 0 <= j < k ==> images[j].id != imageId)))
  {
    match GetPlanet(galaxyId, solarSystemId, planetId)
    case None => None
    case Some(planet) => Find(planet.images, (i: CelestialImage) => i.id == imageId)
  }

  // The catalog flattened level by level, in galaxy, system, planet, image order.

  function SystemsOf(galaxies: seq<Galaxy>): seq<SolarSystem>
  {
    if galaxies == [] then [] else galaxies[0].solarSystems + SystemsOf(galaxies[1..])
  }

  function PlanetsOf(systems: seq<SolarSystem>): seq<Planet>
  {
    if systems == [] then [] else systems[0].planets + PlanetsOf(systems[1..])
  }

  function ImagesOf(planets: seq<Planet>): seq<CelestialImage>
  {
    if planets == [] then [] else planets[0].images + ImagesOf(planets[1..])
  }

  /** Every image of the catalog: each planet's images in order, planets in system order,
      systems in galaxy order. */
  function CatalogImages(galaxies: seq<Galaxy>): seq<CelestialImage>
  {
    ImagesOf(PlanetsOf(SystemsOf(galaxies)))
  }

  predicate DistinctImageIds(images: seq<CelestialImage>)
  {
    forall i, j :: 0 <= i < j < |images| ==> images[i].id != images[j].id
  }

  lemma CatalogContents()
    ensures SystemsOf(Universe) == [Sol, AlphaCentauri, AndromedaCore, HubbleDeepField]
    ensures PlanetsOf(SystemsOf(Universe)) == [Earth, Moon, Mars, ProximaB, AndromedaView, DeepField]
    ensures CatalogImages(Universe)
      == [EarthBlueMarble, EarthAtNight, LunarSurface, VallesMarineris, ProximaConcept, AndromedaM31, HubbleUltraDeepField]
  {
    SystemsList();
    PlanetsList();
    ImagesList();
  }

  lemma SystemsList()
    ensures SystemsOf(Universe) == [Sol, AlphaCentauri, AndromedaCore, HubbleDeepField]
  {
    var gs := Universe;
    assert gs[1..][1..][1..] == [];
    assert SystemsOf(gs[1..][1..]) == [HubbleDeepField];
    assert SystemsOf(gs[1..]) == [AndromedaCore, HubbleDeepField];
  }

  lemma PlanetsList()
    ensures PlanetsOf([Sol, AlphaCentauri, AndromedaCore, HubbleDeepField]) == [Earth, Moon, Mars, ProximaB, AndromedaView, DeepField]
  {
    var ss := [Sol, AlphaCentauri, AndromedaCore, HubbleDeepField];
    assert ss[1..][1..][1..][1..] == [];
    assert PlanetsOf(ss[1..][1..][1..]) == [DeepField];
    assert PlanetsOf(ss[1..][1..]) == [AndromedaView, DeepField];
    assert PlanetsOf(ss[1..]) == [ProximaB, AndromedaView, DeepField];
  }

  lemma ImagesList()
    ensures ImagesOf([Earth, Moon, Mars, ProximaB, AndromedaView, DeepField])
      == [EarthBlueMarble, EarthAtNight, LunarSurface, VallesMarineris, ProximaConcept, AndromedaM31, HubbleUltraDeepField]
  {
    var ps := [Earth, Moon, Mars, ProximaB, AndromedaView, DeepField];
    assert ps[1..][1..][1..][1..][1..][1..] == [];
    assert ImagesOf(ps[1..][1..][1..][1..][1..]) == [HubbleUltraDeepField];
    assert ImagesOf(ps[1..][1..][1..][1..]) == [AndromedaM31, HubbleUltraDeepField];
    assert ImagesOf(ps[1..][1..][1..]) == [ProximaConcept, AndromedaM31, HubbleUltraDeepField];
    assert ImagesOf(ps[1..][1..]) == [VallesMarineris, ProximaConcept, AndromedaM31, HubbleUltraDeepField];
    assert ImagesOf(ps[1..]) == [LunarSurface, VallesMarineris, ProximaConcept, AndromedaM31, HubbleUltraDeepField];
  }

  /** No two images of the catalog share an id, so a find by image id over all of them is unambiguous. */
  lemma CatalogImageIdsDistinct()
    ensures DistinctImageIds(CatalogImages(Universe))
  {
    CatalogContents();
  }

  /** Every habitability score the catalog states lies on the documented 0-100 scale. */
  lemma CatalogScoresInRange()
    ensures forall k :: 0 <= k < |PlanetsOf(SystemsOf(Universe))| ==>
      var p := PlanetsOf(SystemsOf(Universe))[k];
      p.statistics.Some? && p.statistics.value.habitabilityScore.Some? ==>
        0 <= p.statistics.value.habitabilityScore.value <= 100
  {
    CatalogContents();
  }

  /** `earth-1` resolves under milky-way / sol / earth, and under no other path. */
  lemma Earth1IsPathScoped(galaxyId: string, solarSystemId: string, planetId: string)
    ensures GetImage("milky-way", "sol", "earth", "earth-1") == Some(EarthBlueMarble)
    ensures GetImage(galaxyId, solarSystemId, planetId, "earth-1").Some? ==>
      galaxyId == "milky-way" && solarSystemId == "sol" && planetId == "earth"
  {
    assert GetGalaxy("milky-way") == Some(MilkyWay) by {
      assert Universe[0] == MilkyWay;
    }
    assert GetSolarSystem("milky-way", "sol") == Some(Sol) by {
      assert MilkyWay.solarSystems[0] == Sol;
    }
    assert GetPlanet("milky-way", "sol", "earth") == Some(Earth) by {
      assert Sol.planets[0] == Earth;
    }
    assert Earth.images[0] == EarthBlueMarble;
    if GetImage(galaxyId, solarSystemId, planetId, "earth-1").Some? {
      var g := GetGalaxy(galaxyId).value;
      var s := GetSolarSystem(galaxyId, solarSystemId).value;
      var p := GetPlanet(galaxyId, solarSystemId, planetId).value;
      var i := GetImage(galaxyId, solarSystemId, planetId, "earth-1").value;
      assert g in Universe && s in g.solarSystems && p in s.planets && i in p.images;
      assert i.id == "earth-1" && p.id == planetId && s.id == solarSystemId && g.id == galaxyId;
      OnlyEarthHoldsEarth1(g, s, p, i);
    }
  }

  lemma OnlyEarthHoldsEarth1(g: Galaxy, s: SolarSystem, p: Planet, i: CelestialImage)
    requires g in Universe && s in g.solarSystems && p in s.planets && i in p.images
    requires i.id == "earth-1"
    ensures g.id == "milky-way" && s.id == "sol" && p.id == "earth"
  {
  }

  /** No two entries of a level share an id. */
  predicate UniqueGalaxyIds(gs: seq<Galaxy>)
  {
    forall a, b :: 0 <= a < b < |gs| ==> gs[a].id != gs[b].id
  }

  predicate UniqueSystemIds(ss: seq<SolarSystem>)
  {
    forall a, b :: 0 <= a < b < |ss| ==> ss[a].id != ss[b].id
  }

  predicate UniquePlanetIds(ps: seq<Planet>)
  {
    forall a, b :: 0 <= a < b < |ps| ==> ps[a].id != ps[b].id
  }

  /** Within every galaxy, system and planet of the catalog the children's ids are distinct. */
  lemma CatalogLevelsUnique()
    ensures UniqueGalaxyIds(Universe)
    ensures forall g :: 0 <= g < |Universe| ==> UniqueSystemIds(Universe[g].solarSystems)
    ensures forall g, s :: 0 <= g < |Universe| && 0 <= s < |Universe[g].solarSystems| ==>
      UniquePlanetIds(Universe[g].solarSystems[s].planets)
    ensures forall g, s, p :: 0 <= g < |Universe| && 0 <= s < |Universe[g].solarSystems| && 0 <= p < |Universe[g].solarSystems[s].planets| ==>
      DistinctImageIds(Universe[g].solarSystems[s].planets[p].images)
  {
    assert UniqueSystemIds(MilkyWay.solarSystems);
    assert UniquePlanetIds(Sol.planets);
    assert DistinctImageIds(Earth.images);
  }

  /** Looking up the ids along any path down the catalog finds exactly the entries on
      that path: g-th galaxy, its s-th system, that system's p-th planet and its i-th image. */
  lemma CatalogPathResolves(g: nat, s: nat, p: nat, i: nat)
    requires g < |Universe| && s < |Universe[g].solarSystems|
    requires p < |Universe[g].solarSystems[s].planets| && i < |Universe[g].solarSystems[s].planets[p].images|
    ensures var galaxy := Universe[g];
      var system := galaxy.solarSystems[s];
      var planet := system.planets[p];
      var image := planet.images[i];
      GetGalaxy(galaxy.id) == Some(galaxy) &&
      GetSolarSystem(galaxy.id, system.id) == Some(system) &&
      GetPlanet(galaxy.id, system.id, planet.id) == Some(planet) &&
      GetImage(galaxy.id, system.id, planet.id, image.id) == Some(image)
  {
    CatalogLevelsUnique();
  }
}
