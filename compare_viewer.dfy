/** The state of `components/compare-viewer.tsx`: the flattened image list, the
    left and right selections, the split/overlay mode and the overlay opacity.
    The OpenSeadragon viewers themselves are not modelled; what is kept is which
    image each side shows and whether a right viewer belongs to the layout. */
module CompareViewer {
  import opened Seqs
  import opened UniverseData

  datatype CompareMode = Split | Overlay

  lemma {:induction false} ImagesOfAppend(a: seq<Planet>, b: seq<Planet>)
    ensures ImagesOf(a + b) == ImagesOf(a) + ImagesOf(b)
  {
    if a == [] {
      assert a + b == b;
    } else {
      assert (a + b)[1..] == a[1..] + b;
      ImagesOfAppend(a[1..], b);
    }
  }

  lemma {:induction false} PlanetsOfAppend(a: seq<SolarSystem>, b: seq<SolarSystem>)
    ensures PlanetsOf(a + b) == PlanetsOf(a) + PlanetsOf(b)
  {
    if a == [] {
      assert a + b == b;
    } else {
      assert (a + b)[1..] == a[1..] + b;
      PlanetsOfAppend(a[1..], b);
    }
  }

  lemma {:induction false} SystemsOfAppend(a: seq<Galaxy>, b: seq<Galaxy>)
    ensures SystemsOf(a + b) == SystemsOf(a) + SystemsOf(b)
  {
    if a == [] {
      assert a + b == b;
    } else {
      assert (a + b)[1..] == a[1..] + b;
      SystemsOfAppend(a[1..], b);
    }
  }

  /** The images of the first `i + 1` planets are those of the first `i` and then the next one's. */
  lemma ImagesOfStep(planets: seq<Planet>, i: nat)
    requires i < |planets|
    ensures ImagesOf(planets[..i + 1]) == ImagesOf(planets[..i]) + planets[i].images
  {
    assert planets[..i + 1] == planets[..i] + [planets[i]];
    ImagesOfAppend(planets[..i], [planets[i]]);
    assert [planets[i]][1..] == [];
  }

  lemma SystemImagesStep(systems: seq<SolarSystem>, i: nat)
    requires i < |systems|
    ensures ImagesOf(PlanetsOf(systems[..i + 1])) == ImagesOf(PlanetsOf(systems[..i])) + ImagesOf(systems[i].planets)
  {
    assert systems[..i + 1] == systems[..i] + [systems[i]];
    PlanetsOfAppend(systems[..i], [systems[i]]);
    assert [systems[i]][1..] == [];
    assert PlanetsOf([systems[i]]) == systems[i].planets;
    ImagesOfAppend(PlanetsOf(systems[..i]), systems[i].planets);
  }

  lemma GalaxyImagesStep(galaxies: seq<Galaxy>, i: nat)
    requires i < |galaxies|
    ensures CatalogImages(galaxies[..i + 1]) == CatalogImages(galaxies[..i]) + ImagesOf(PlanetsOf(galaxies[i].solarSystems))
  {
    assert galaxies[..i + 1] == galaxies[..i] + [galaxies[i]];
    SystemsOfAppend(galaxies[..i], [galaxies[i]]);
    assert [galaxies[i]][1..] == [];
    assert SystemsOf([galaxies[i]]) == galaxies[i].solarSystems;
    PlanetsOfAppend(SystemsOf(galaxies[..i]), galaxies[i].solarSystems);
    ImagesOfAppend(PlanetsOf(SystemsOf(galaxies[..i])), PlanetsOf(galaxies[i].solarSystems));
  }

  /** The nested `forEach` that pushes every image: galaxies, then their systems, then
      their planets, then their images, each in array order. Each callback level is a
      method that pushes onto the same list. */
  method CollectImages(galaxies: seq<Galaxy>) returns (allImages: seq<CelestialImage>)
    ensures allImages == CatalogImages(galaxies)
  {
    allImages := [];
    for g := 0 to |galaxies|
      invariant allImages == CatalogImages(galaxies[..g])
    {
      allImages := PushSystems(allImages, galaxies[g].solarSystems);
      GalaxyImagesStep(galaxies, g);
    }
    assert galaxies[..|galaxies|] == galaxies;
  }

  method PushSystems(acc: seq<CelestialImage>, systems: seq<SolarSystem>) returns (allImages: seq<CelestialImage>)
    ensures allImages == acc + ImagesOf(PlanetsOf(systems))
  {
    allImages := acc;
    for s := 0 to |systems|
      invariant allImages == acc + ImagesOf(PlanetsOf(systems[..s]))
    {
      allImages := PushPlanets(allImages, systems[s].planets);
      SystemImagesStep(systems, s);
    }
    assert systems[..|systems|] == systems;
  }

  method PushPlanets(acc: seq<CelestialImage>, planets: seq<Planet>) returns (allImages: seq<CelestialImage>)
    ensures allImages == acc + ImagesOf(planets)
  {
    allImages := acc;
    for p := 0 to |planets|
      invariant allImages == acc + ImagesOf(planets[..p])
    {
      var planet := planets[p];
      ghost var before := allImages;
      for i := 0 to |planet.images|
        invariant allImages == before + planet.images[..i]
      {
        allImages := allImages + [planet.images[i]];
        assert planet.images[..i + 1] == planet.images[..i] + [planet.images[i]];
      }
      assert planet.images[..|planet.images|] == planet.images;
      ImagesOfStep(planets, p);
    }
    assert planets[..|planets|] == planets;
  }

  /** The image the left side starts with: the first image whose id is the `image`
      query parameter when that is non-empty and matches, otherwise the first image. */
  function InitialLeft(allImages: seq<CelestialImage>, imageParam: Option<string>): (r: CelestialImage)
    requires |allImages| >= 1
    ensures r in allImages
    ensures (imageParam.Some? && imageParam.value != "" && exists k :: 0 <= k < |allImages| && allImages[k].id == imageParam.value)
      ==> r.id == imageParam.value
    ensures !(imageParam.Some? && imageParam.value != "" && exists k :: 0 <= k < |allImages| && allImages[k].id == imageParam.value)
      ==> r == allImages[0]
  {
    var initialId := if imageParam.Some? && imageParam.value != "" then imageParam.value else allImages[0].id;
    match Find(allImages, (img: CelestialImage) => img.id == initialId)
    case Some(img) => img
    case None => allImages[0]
  }

  /** `allImages[1] || allImages[0]` */
  function InitialRight(allImages: seq<CelestialImage>): (r: CelestialImage)
    requires |allImages| >= 1
    ensures r in allImages
    ensures |allImages| >= 2 ==> r == allImages[1]
    ensures |allImages| == 1 ==> r == allImages[0]
  {
    if |allImages| >= 2 then allImages[1] else allImages[0]
  }

  /** With distinct ids, finding by an image's own id gives back that very image. */
  lemma FindByOwnId(images: seq<CelestialImage>, k: nat)
    requires DistinctImageIds(images) && k < |images|
    ensures Find(images, (img: CelestialImage) => img.id == images[k].id) == Some(images[k])
  {
    var r := FirstIndex(images, (img: CelestialImage) => img.id == images[k].id);
    assert r.Some?;
  }

  /** Opening the comparison from a link that names any catalog image puts exactly that image on the left. */
  lemma InitialLeftOfCatalogImage(k: nat)
    requires k < |CatalogImages(Universe)|
    ensures InitialLeft(CatalogImages(Universe), Some(CatalogImages(Universe)[k].id)) == CatalogImages(Universe)[k]
  {
    var all := CatalogImages(Universe);
    CatalogContents();
    CatalogImageIdsDistinct();
    assert all[k].id != "";
    FindByOwnId(all, k);
  }

  class Comparison {
    var allImages: seq<CelestialImage>
    var leftImage: CelestialImage
    var rightImage: CelestialImage
    var mode: CompareMode
    /** The slider value `opacity[0]`, an integer percentage. */
    var opacity: int

    ghost predicate Valid()
      reads this
    {
      allImages == CatalogImages(Universe) && leftImage in allImages && rightImage in allImages && 0 <= opacity <= 100
    }

    /** The first render, for the page's `image` query parameter. */
    constructor (imageParam: Option<string>)
      ensures Valid()
      ensures leftImage == InitialLeft(allImages, imageParam) && rightImage == InitialRight(allImages)
      ensures mode == Split && opacity == 50
    {
      var images := CollectImages(Universe);
      CatalogContents();
      allImages := images;
      leftImage := InitialLeft(images, imageParam);
      rightImage := InitialRight(images);
      mode := Split;
      opacity := 50;
    }

    /** The Split and Overlay buttons. */
    method SetMode(m: CompareMode)
      modifies this
      ensures mode == m
      ensures allImages == old(allImages) && leftImage == old(leftImage) && rightImage == old(rightImage) && opacity == old(opacity)
    {
      mode := m;
    }

    /** The left selector: it only offers ids of listed images, and the `!` relies on that. */
    method SelectLeft(id: string)
      requires Valid()
      requires exists k :: 0 <= k < |allImages| && allImages[k].id == id
      modifies this
      ensures Valid()
      ensures leftImage.id == id && leftImage == Find(allImages, (img: CelestialImage) => img.id == id).value
      ensures allImages == old(allImages) && rightImage == old(rightImage) && mode == old(mode) && opacity == old(opacity)
    {
      var found := Find(allImages, (img: CelestialImage) => img.id == id);
      leftImage := found.value;
    }

    /** The right selector, symmetric to the left one. */
    method SelectRight(id: string)
      requires Valid()
      requires exists k :: 0 <= k < |allImages| && allImages[k].id == id
      modifies this
      ensures Valid()
      ensures rightImage.id == id && rightImage == Find(allImages, (img: CelestialImage) => img.id == id).value
      ensures allImages == old(allImages) && leftImage == old(leftImage) && mode == old(mode) && opacity == old(opacity)
    {
      var found := Find(allImages, (img: CelestialImage) => img.id == id);
      rightImage := found.value;
    }

    /** The opacity slider, `max={100}` with step 1. */
    method SetOpacity(value: int)
      requires Valid() && 0 <= value <= 100
      modifies this
      ensures Valid() && opacity == value
      ensures allImages == old(allImages) && leftImage == old(leftImage) && rightImage == old(rightImage) && mode == old(mode)
    {
      opacity := value;
    }

    /** The CSS opacity of the overlay layer, `opacity[0] / 100`. */
    function OverlayOpacity(): (r: real)
      reads this
      requires Valid()
      ensures 0.0 <= r <= 1.0
      ensures r * 100.0 == opacity as real
    {
      opacity as real / 100.0
    }

    /** A right viewer belongs to the layout, and is created and reopened, only in split mode;
        overlay mode shows a static thumbnail instead. */
    predicate HasRightViewer()
      reads this
    {
      mode == Split
    }

    /** The overlay picture: the right image's thumbnail, or the placeholder when it is empty. */
    function OverlaySource(): (src: string)
      reads this
      ensures rightImage.thumbnail != "" ==> src == rightImage.thumbnail
      ensures rightImage.thumbnail == "" ==> src == "/placeholder.svg"
    {
      if rightImage.thumbnail != "" then rightImage.thumbnail else "/placeholder.svg"
    }
  }

  /** Choosing an image on one side leaves the other side as it was: starting from the
      first render and choosing `mars-1` on the left keeps `earth-2` on the right. */
  method ChooseLeftKeepsRight() returns (left: CelestialImage, right: CelestialImage)
    ensures left == VallesMarineris && right == EarthAtNight
  {
    var c := new Comparison(None);
    CatalogContents();
    assert c.allImages[3].id == "mars-1";
    c.SelectLeft("mars-1");
    CatalogImageIdsDistinct();
    FindByOwnId(c.allImages, 3);
    left, right := c.leftImage, c.rightImage;
  }
}
