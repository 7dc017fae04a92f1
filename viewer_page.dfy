/** The image page of `app/viewer/page.tsx`: it reads the four ids from its query string,
    looks each level up in the catalog, and shows either "Image not found" or the image
    with its planet's statistics, a compare link and the deep-zoom viewer. Number
    formatting with `toFixed` is a parameter. */
module ViewerPage {
  import opened Seqs
  import opened Text
  import opened Urls
  import opened UniverseData
  import opened UniversePage
  import CompareViewer

  /** `searchParams.get(key) || ""`. */
  function ParamOr(url: string, key: string): (v: string)
    ensures GetParam(url, key).None? ==> v == ""
    ensures GetParam(url, key).Some? ==> v == GetParam(url, key).value
  {
    match GetParam(url, key)
    case None => ""
    case Some(v) => v
  }

  datatype Shown =
    | NotFound
    | Found(galaxy: Galaxy, system: SolarSystem, planet: Planet, image: CelestialImage)

  /** An image lookup only succeeds when the planet, system and galaxy lookups on the
      same ids do, so the page's four-way test comes down to the image lookup. */
  lemma ImageImpliesPath(g: string, s: string, p: string, i: string)
    requires GetImage(g, s, p, i).Some?
    ensures GetPlanet(g, s, p).Some? && GetSolarSystem(g, s).Some? && GetGalaxy(g).Some?
  {
  }

  /** What the page shows for `url`: the image with the entries along its path when all
      four lookups succeed, and "Image not found" exactly when the image lookup fails. */
  function Resolve(url: string): (shown: Shown)
    ensures var g, s, p, i := ParamOr(url, "galaxy"), ParamOr(url, "system"), ParamOr(url, "planet"), ParamOr(url, "image");
      (shown.NotFound? <==> GetImage(g, s, p, i).None?) &&
      (shown.Found? ==> shown == Found(GetGalaxy(g).value, GetSolarSystem(g, s).value, GetPlanet(g, s, p).value, GetImage(g, s, p, i).value)) &&
      (shown.Found? ==> shown.image.id == i && shown.planet.id == p && shown.system.id == s && shown.galaxy.id == g)
  {
    var g, s, p, i := ParamOr(url, "galaxy"), ParamOr(url, "system"), ParamOr(url, "planet"), ParamOr(url, "image");
    var galaxy, system, planet, image := GetGalaxy(g), GetSolarSystem(g, s), GetPlanet(g, s, p), GetImage(g, s, p, i);
    if image.None? || planet.None? || system.None? || galaxy.None? then NotFound
    else Found(galaxy.value, system.value, planet.value, image.value)
  }

  /** The cross-page property: the link behind any image button of the universe page
      opens the viewer on exactly that image, under its galaxy, system and planet. */
  lemma ViewerOpensClickedImage(g: nat, s: nat, p: nat, i: nat)
    requires g < |Universe| && s < |Universe[g].solarSystems|
    requires p < |Universe[g].solarSystems[s].planets| && i < |Universe[g].solarSystems[s].planets[p].images|
    ensures var galaxy := Universe[g];
      var system := galaxy.solarSystems[s];
      var planet := system.planets[p];
      Resolve(ViewerUrl(galaxy.id, system.id, planet.id, planet.images[i].id)) == Found(galaxy, system, planet, planet.images[i])
  {
    CatalogLinkReadsBack(g, s, p, i);
    CatalogPathResolves(g, s, p, i);
  }

  /** A URL without any query string shows "Image not found". */
  lemma BareViewerNotFound()
    ensures Resolve("/viewer") == NotFound
  {
    GetParamNoQuery("/viewer", "image");
    GetParamNoQuery("/viewer", "galaxy");
    assert GetGalaxy("").None?;
  }

  /** `formatValue`: "N/A" for a missing value, else the formatted number and the unit. */
  function FormatValue(value: Option<real>, unit: string, decimals: nat, toFixed: (real, nat) -> string): (text: string)
    ensures value.None? ==> text == "N/A"
    ensures value.Some? ==> text == toFixed(value.value, decimals) + " " + unit
  {
    match value
    case None => "N/A"
    case Some(v) => toFixed(v, decimals) + " " + unit
  }

  /** `getHabitabilityColor`: four bands, at 80, 60 and 40. */
  function HabitabilityColor(score: int): (color: string)
    ensures score >= 80 ==> color == "bg-green-500"
    ensures 60 <= score < 80 ==> color == "bg-yellow-500"
    ensures 40 <= score < 60 ==> color == "bg-orange-500"
    ensures score < 40 ==> color == "bg-red-500"
  {
    if score >= 80 then "bg-green-500"
    else if score >= 60 then "bg-yellow-500"
    else if score >= 40 then "bg-orange-500"
    else "bg-red-500"
  }

  /** The bands in order of habitability, red lowest. */
  function Band(color: string): nat
  {
    if color == "bg-green-500" then 3
    else if color == "bg-yellow-500" then 2
    else if color == "bg-orange-500" then 1
    else 0
  }

  /** A higher score never gets a lower band. */
  lemma HabitabilityMonotone(a: int, b: int)
    requires a <= b
    ensures Band(HabitabilityColor(a)) <= Band(HabitabilityColor(b))
  {
    assert "bg-green-500" != "bg-yellow-500" && "bg-green-500" != "bg-orange-500" && "bg-yellow-500" != "bg-orange-500" by {
      assert "bg-green-500"[3] != "bg-yellow-500"[3] && "bg-green-500"[3] != "bg-orange-500"[3];
      assert "bg-yellow-500"[3] != "bg-orange-500"[3];
    }
  }

  /** Decimal text of any integer, as `toString` writes it. */
  function IntText(n: int): (s: string)
    ensures n >= 0 ==> s == NatToString(n)
    ensures n < 0 ==> s == "-" + NatToString(-n)
  {
    if n >= 0 then NatToString(n) else "-" + NatToString(-n)
  }

  /** The habitability badge: its text uses `?? "N/A"` but its colour `|| 0`, so a
      missing score is labelled "N/A" and coloured as a score of zero. */
  function ScoreBadge(score: Option<int>): (badge: (string, string))
    ensures score.None? ==> badge == ("N/A", HabitabilityColor(0))
    ensures score.Some? ==> badge == (IntText(score.value), HabitabilityColor(score.value))
  {
    match score
    case None => ("N/A", HabitabilityColor(0))
    case Some(n) => (IntText(n), HabitabilityColor(n))
  }

  /** A planet without a score looks as uninhabitable as one scored zero. */
  lemma MissingScoreColouredAsZero()
    ensures ScoreBadge(None).1 == ScoreBadge(Some(0)).1 == "bg-red-500"
    ensures ScoreBadge(None).0 == "N/A" && ScoreBadge(Some(0)).0 == "0"
  {
  }

  /** `stats.moons?.toString() || "0"`: a count is never rendered empty, so "0" stands in
      only for a missing count, and a stated count reads back as itself. */
  function MoonsText(moons: Option<int>): (text: string)
    ensures moons.None? ==> text == "0"
    ensures moons.Some? && moons.value >= 0 ==> AllDigits(text) && ParseNat(text) == moons.value
  {
    match moons
    case None => "0"
    case Some(n) =>
      if n >= 0 then ParseNatToString(n); IntText(n) else IntText(n)
  }

  /** The labels of the statistics dialog's cards, in the order it shows them. */
  const StatCardLabels: seq<string> := ["Habitability Score", "Type", "Radius", "Mass",
    "Surface Area", "Gravity", "Escape Velocity", "Day Length", "Year Length",
    "Distance from Star", "Average Temperature", "Atmosphere Composition",
    "Surface Pressure", "Moons"]

  /** The body of the statistics dialog: a planet without statistics gets the single line
      "No statistics available."; one with statistics gets its fourteen cards and never
      that line. */
  function StatsDialogBody(stats: Option<PlanetStatistics>): (lines: seq<string>)
    ensures stats.None? <==> lines == ["No statistics available."]
    ensures stats.Some? ==> |lines| == 14 && lines[0] == "Habitability Score" && lines[13] == "Moons"
  {
    if stats.None? then ["No statistics available."] else StatCardLabels
  }

  /** The badges of the catalog's four scored planets. */
  lemma CatalogBadges()
    ensures ScoreBadge(EarthStatistics.habitabilityScore).1 == "bg-green-500"
    ensures ScoreBadge(MoonStatistics.habitabilityScore).1 == "bg-red-500"
    ensures ScoreBadge(MarsStatistics.habitabilityScore).1 == "bg-red-500"
    ensures ScoreBadge(ProximaStatistics.habitabilityScore).1 == "bg-yellow-500"
  {
  }

  /** The Compare button: the same four ids, as read from the query, on `/compare`. */
  function CompareUrl(galaxyId: string, systemId: string, planetId: string, imageId: string): string
  {
    WithQuery("/compare", IdParams(galaxyId, systemId, planetId, imageId))
  }

  /** The comparison opened from the viewer of a catalog image starts with that image on the left. */
  lemma CompareKeepsImage(k: nat, galaxyId: string, systemId: string, planetId: string)
    requires k < |CatalogImages(Universe)|
    requires Plain(galaxyId) && Plain(systemId) && Plain(planetId)
    ensures var id := CatalogImages(Universe)[k].id;
      var url := CompareUrl(galaxyId, systemId, planetId, id);
      CompareViewer.InitialLeft(CatalogImages(Universe), GetParam(url, "image")) == CatalogImages(Universe)[k]
  {
    var id := CatalogImages(Universe)[k].id;
    CatalogImagesPlain(k);
    IdsReadBack("/compare", galaxyId, systemId, planetId, id);
    CompareViewer.InitialLeftOfCatalogImage(k);
  }

  lemma CatalogImagesPlain(k: nat)
    requires k < |CatalogImages(Universe)|
    ensures Plain(CatalogImages(Universe)[k].id)
  {
    CatalogImageIdAt(k);
    CatalogImageIdsPlain(k);
  }

  /** The catalog's image ids in the order the catalog lists them. */
  const CatalogImageIds: seq<string> := ["earth-1", "earth-2", "moon-1", "mars-1", "proxima-1", "andromeda-1", "hubble-1"]

  lemma CatalogImageIdAt(k: nat)
    requires k < |CatalogImages(Universe)|
    ensures k < |CatalogImageIds| && CatalogImages(Universe)[k].id == CatalogImageIds[k]
  {
    CatalogContents();
  }

  lemma CatalogImageIdsPlain(k: nat)
    requires k < |CatalogImageIds|
    ensures Plain(CatalogImageIds[k])
  {
    assert Plain("earth-1") && Plain("earth-2") && Plain("moon-1") && Plain("mars-1");
    assert Plain("proxima-1") && Plain("andromeda-1") && Plain("hubble-1");
  }

  /** The page's own state. `cursorPosition` is handed to the deep-zoom viewer as
      `onCursorPositionChange`, a property that component does not declare and never
      calls, so no event ever sets it. */
  class Viewer {
    var isAnnotationActive: bool
    var zoom: real
    var cursorPosition: Option<(real, real)>
    var isStatsOpen: bool

    constructor ()
      ensures !isAnnotationActive && zoom == 1.0 && cursorPosition == None && !isStatsOpen
    {
      isAnnotationActive := false;
      zoom := 1.0;
      cursorPosition := None;
      isStatsOpen := false;
    }

    /** The "MOUSE POSITION" panel of the HUD needs coordinates. */
    predicate ShowsMousePosition()
      reads this
    {
      cursorPosition.Some?
    }

    function AnnotateLabel(): (text: string)
      reads this
      ensures isAnnotationActive <==> text == "Annotating"
      ensures !isAnnotationActive <==> text == "Annotate"
    {
      if isAnnotationActive then "Annotating" else "Annotate"
    }

    method ToggleAnnotate()
      modifies this
      ensures isAnnotationActive == !old(isAnnotationActive)
      ensures zoom == old(zoom) && cursorPosition == old(cursorPosition) && isStatsOpen == old(isStatsOpen)
    {
      isAnnotationActive := !isAnnotationActive;
    }

    /** The deep-zoom viewer's zoom handler calls `onZoomChange`. */
    method ZoomChanged(z: real)
      modifies this
      ensures zoom == z
      ensures isAnnotationActive == old(isAnnotationActive) && cursorPosition == old(cursorPosition) && isStatsOpen == old(isStatsOpen)
    {
      zoom := z;
    }

    method SetStatsOpen(open: bool)
      modifies this
      ensures isStatsOpen == open
      ensures isAnnotationActive == old(isAnnotationActive) && zoom == old(zoom) && cursorPosition == old(cursorPosition)
    {
      isStatsOpen := open;
    }
  }

  /** Whatever the visitor does, the HUD never shows a mouse position. The class has no
      event that sets `cursorPosition` because the deep-zoom viewer's properties declare
      no `onCursorPositionChange`, so the page's setter is never called. */
  method EventsNeverShowCursor(zooms: seq<real>) returns (shown: bool, text: string)
    ensures !shown && text == "Annotating"
  {
    var v := new Viewer();
    v.ToggleAnnotate();
    v.SetStatsOpen(true);
    for k := 0 to |zooms|
      invariant v.cursorPosition == None && v.isAnnotationActive
    {
      v.ZoomChanged(zooms[k]);
    }
    v.SetStatsOpen(false);
    shown, text := v.ShowsMousePosition(), v.AnnotateLabel();
  }
}
