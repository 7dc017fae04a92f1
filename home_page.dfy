/** The landing page of `app/page.tsx`: three featured images with links into the
    viewer, and one card per galaxy with its totals and a link into the universe page. */
module HomePage {
  import opened Seqs
  import opened Urls
  import opened UniverseData
  import opened UniversePage
  import opened ViewerPage
  import CompareViewer

  datatype Featured = Featured(name: string, thumbnail: string, description: string, url: string)

  /** The first galaxy's first system is the Solar System. */
  lemma HomeSystem()
    ensures Universe[0] == MilkyWay && MilkyWay.solarSystems[0] == Sol && |Sol.planets| == 3
    ensures forall k :: 0 <= k < 3 ==> |Sol.planets[k].images| > 0
  {
  }

  /** The first image of the k-th planet of the first system of the first galaxy,
      whose thumbnail each featured card borrows. */
  function FeaturedSource(k: nat): (image: CelestialImage)
    requires k < 3
    ensures image == Universe[0].solarSystems[0].planets[k].images[0]
  {
    HomeSystem();
    Sol.planets[k].images[0]
  }

  /** The titles and blurbs of the three featured cards. */
  const FeaturedNames: seq<string> := ["Earth - Blue Marble", "Moon - Lunar Surface", "Mars - Red Planet"]
  const FeaturedBlurbs: seq<string> := [
    "Our home planet in stunning detail", "Explore the cratered lunar landscape", "The mysterious red neighbor"]

  /** The planet and image ids the written links use. */
  const WrittenPlanets: seq<string> := ["earth", "moon", "mars"]
  const WrittenImages: seq<string> := ["earth-blue-marble", "moon-surface", "mars-surface"]

  /** The featured cards as written: the links name the system `solar-system` and image
      ids `earth-blue-marble`, `moon-surface` and `mars-surface`. */
  function FeaturedAsWritten(): (cards: seq<Featured>)
    ensures |cards| == 3
    ensures forall k :: 0 <= k < 3 ==> cards[k].thumbnail == FeaturedSource(k).thumbnail
    ensures forall k :: 0 <= k < 3 ==>
      cards[k].url == ViewerUrl("milky-way", "solar-system", WrittenPlanets[k], WrittenImages[k])
  {
    seq(3, (k: int) requires 0 <= k < 3 =>
      Featured(FeaturedNames[k], FeaturedSource(k).thumbnail, FeaturedBlurbs[k],
        ViewerUrl("milky-way", "solar-system", WrittenPlanets[k], WrittenImages[k])))
  }

  lemma WrittenIdsPlain(k: nat)
    requires k < 3
    ensures Plain(WrittenPlanets[k]) && Plain(WrittenImages[k])
  {
    assert Plain("earth") && Plain("moon") && Plain("mars");
    assert Plain("earth-blue-marble") && Plain("moon-surface") && Plain("mars-surface");
  }

  /** The Milky Way has no system with the id `solar-system`; its home system is `sol`. */
  lemma NoSolarSystemId()
    ensures GetSolarSystem("milky-way", "solar-system").None?
  {
    assert GetGalaxy("milky-way") == Some(MilkyWay) by {
      assert Universe[0] == MilkyWay;
    }
    assert "sol" != "solar-system" && "alpha-centauri" != "solar-system";
  }

  /** Any viewer link that names the system `solar-system` under the Milky Way opens
      "Image not found", whatever planet and image it names. */
  lemma SolarSystemLinkNotFound(planetId: string, imageId: string)
    requires Plain(planetId) && Plain(imageId)
    ensures Resolve(ViewerUrl("milky-way", "solar-system", planetId, imageId)) == NotFound
  {
    WrittenPathPlain();
    ViewerUrlReadsBack("milky-way", "solar-system", planetId, imageId);
    NoSolarSystemImage(planetId, imageId);
  }

  lemma WrittenPathPlain()
    ensures Plain("milky-way") && Plain("solar-system")
  {
  }

  lemma NoSolarSystemImage(planetId: string, imageId: string)
    ensures GetImage("milky-way", "solar-system", planetId, imageId).None?
  {
    NoSolarSystemId();
  }

  /** Every featured link as written opens "Image not found". */
  lemma FeaturedLinksNotFound(k: nat)
    requires k < 3
    ensures Resolve(FeaturedAsWritten()[k].url) == NotFound
  {
    WrittenIdsPlain(k);
    SolarSystemLinkNotFound(WrittenPlanets[k], WrittenImages[k]);
  }

  /** The evidently intended link of the k-th card: the ids along the catalog path of
      the image whose thumbnail the card shows. */
  function CardLink(k: nat): (url: string)
    requires k < 3
  {
    HomeSystem();
    var planet := Sol.planets[k];
    ViewerUrl(MilkyWay.id, Sol.id, planet.id, planet.images[0].id)
  }

  /** The evidently intended cards: the written cards, each with its link replaced by
      the catalog link of the image whose thumbnail it shows. */
  function FeaturedCards(): (cards: seq<Featured>)
    ensures |cards| == 3
    ensures forall k :: 0 <= k < 3 ==> cards[k] == FeaturedAsWritten()[k].(url := CardLink(k))
  {
    seq(3, (k: int) requires 0 <= k < 3 =>
      Featured(FeaturedNames[k], FeaturedSource(k).thumbnail, FeaturedBlurbs[k], CardLink(k)))
  }

  /** Each corrected link opens the viewer on the very image whose thumbnail the card shows. */
  lemma FeaturedCardsOpenTheirImage(k: nat)
    requires k < 3
    ensures Resolve(FeaturedCards()[k].url) == Found(Universe[0], Universe[0].solarSystems[0],
      Universe[0].solarSystems[0].planets[k], FeaturedSource(k))
    ensures Resolve(FeaturedCards()[k].url).image.thumbnail == FeaturedCards()[k].thumbnail
  {
    HomeSystem();
    ViewerOpensClickedImage(0, 0, k, 0);
  }

  // The card totals, `galaxy.solarSystems.reduce(...)`, summed system by system.

  function PlanetTotal(systems: seq<SolarSystem>): nat
  {
    if systems == [] then 0 else |systems[0].planets| + PlanetTotal(systems[1..])
  }

  function ImageSum(planets: seq<Planet>): nat
  {
    if planets == [] then 0 else |planets[0].images| + ImageSum(planets[1..])
  }

  function ImageTotal(systems: seq<SolarSystem>): nat
  {
    if systems == [] then 0 else ImageSum(systems[0].planets) + ImageTotal(systems[1..])
  }

  lemma {:induction false} ImageSumCounts(planets: seq<Planet>)
    ensures ImageSum(planets) == |ImagesOf(planets)|
  {
    if planets != [] {
      ImageSumCounts(planets[1..]);
    }
  }

  /** The totals on a card count exactly the planets and images listed under the galaxy. */
  lemma {:induction false} TotalsCountListedEntries(systems: seq<SolarSystem>)
    ensures PlanetTotal(systems) == |PlanetsOf(systems)|
    ensures ImageTotal(systems) == |ImagesOf(PlanetsOf(systems))|
  {
    if systems != [] {
      TotalsCountListedEntries(systems[1..]);
      ImageSumCounts(systems[0].planets);
      CompareViewer.ImagesOfAppend(systems[0].planets, PlanetsOf(systems[1..]));
    }
  }

  /** The numbers the three cards show. */
  lemma CatalogCardTotals()
    ensures PlanetTotal(MilkyWay.solarSystems) == 4 && ImageTotal(MilkyWay.solarSystems) == 5
    ensures PlanetTotal(Andromeda.solarSystems) == 1 && ImageTotal(Andromeda.solarSystems) == 1
    ensures PlanetTotal(DeepSpace.solarSystems) == 1 && ImageTotal(DeepSpace.solarSystems) == 1
  {
    var ps := Sol.planets;
    assert |ps| == 3 && |ps[0].images| == 2 && |ps[1].images| == 1 && |ps[2].images| == 1;
    assert ImageSum(ps[2..]) == 1 by {
      assert ps[2..][1..] == [];
    }
    assert ps[1..][1..] == ps[2..];
    assert ImageSum(ps) == 4;
    var ms := MilkyWay.solarSystems;
    assert |ms| == 2 && ms[0] == Sol && |ms[1].planets| == 1 && |ms[1].planets[0].images| == 1;
    assert ms[1..][1..] == [];
    assert ImageSum(ms[1].planets) == 1 by {
      assert ms[1].planets[1..] == [];
    }
    assert PlanetTotal(ms[1..]) == 1 && ImageTotal(ms[1..]) == 1;
    assert PlanetTotal(ms) == 3 + PlanetTotal(ms[1..]);
    assert ImageTotal(ms) == ImageSum(ps) + ImageTotal(ms[1..]);
    assert Andromeda.solarSystems[1..] == [] && DeepSpace.solarSystems[1..] == [];
    assert AndromedaCore.planets[1..] == [] && HubbleDeepField.planets[1..] == [];
  }

  /** A galaxy card's link, `/universe?galaxy=<id>`. */
  function GalaxyLink(galaxyId: string): string
  {
    WithQuery("/universe", [("galaxy", galaxyId)])
  }

  /** Finding a catalog galaxy by its own id gives that galaxy. */
  lemma GalaxyResolves(g: nat)
    requires g < |Universe|
    ensures GetGalaxy(Universe[g].id) == Some(Universe[g])
  {
    CatalogLevelsUnique();
  }

  /** Following a galaxy card's link opens the universe page on that galaxy's systems. */
  method FollowGalaxyLink(g: nat) returns (v: View)
    requires g < |Universe|
    ensures v == Systems(Universe[g])
  {
    var id := Universe[g].id;
    GalaxyIdPlain(g);
    assert Plain("galaxy");
    GetParamOfBuilt("/universe", [("galaxy", id)], 0);
    GalaxyResolves(g);
    assert id != "" by {
      assert Universe[0].id != "" && Universe[1].id != "" && Universe[2].id != "";
    }
    var page := new Page(GetParam(GalaxyLink(id), "galaxy"));
    page.RunUrlEffect();
    v := page.CurrentView();
  }
}
