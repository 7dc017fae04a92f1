/** The pan-and-zoom state of `components/image-viewer.tsx`: the zoom factor kept in
    [1, 10], the pan offset, and the drag gesture. Event handlers are methods; the
    zoom arithmetic they use is given as functions so that several events can be
    reasoned about together. */
module ImageViewer {

  datatype Point = Point(x: real, y: real)

  const MinZoom: real := 1.0
  const MaxZoom: real := 10.0

  /** Each wheel notch changes the zoom by `deltaY * -0.001`. */
  const WheelFactor: real := 0.001
  /** The zoom buttons step by one half. */
  const ZoomStep: real := 0.5

  /** The image each dataset shows. */
  const DatasetImages: map<string, string> := map[
    "earth" := "https://eoimages.gsfc.nasa.gov/images/imagerecords/73000/73909/world.topo.bathy.200412.3x5400x2700.jpg",
    "moon" := "https://svs.gsfc.nasa.gov/vis/a000000/a004700/a004720/lroc_color_poles_4k.jpg",
    "mars" := "https://mars.nasa.gov/system/resources/detail_files/25042_PIA24546-1600.jpg",
    "space" := "https://stsci-opo.org/STScI-01EVVGBQJNKPXT7XF0VWPQHGKE.png"
  ]

  /** `DATASET_IMAGES[dataset] || DATASET_IMAGES.earth`: every listed URL is non-empty,
      so the fallback applies exactly to datasets that are not listed. */
  function ImageUrl(dataset: string): (url: string)
    ensures url != ""
    ensures dataset in DatasetImages ==> url == DatasetImages[dataset]
    ensures dataset !in DatasetImages ==> url == DatasetImages["earth"]
  {
    if dataset in DatasetImages && DatasetImages[dataset] != "" then DatasetImages[dataset]
    else DatasetImages["earth"]
  }

  /** `Math.min(Math.max(1, zoom + deltaY * -0.001), 10)`. */
  function WheelZoom(zoom: real, deltaY: real): (z: real)
    ensures MinZoom <= z <= MaxZoom
    ensures MinZoom <= zoom - deltaY * WheelFactor <= MaxZoom ==> z == zoom - deltaY * WheelFactor
    ensures zoom - deltaY * WheelFactor < MinZoom ==> z == MinZoom
    ensures zoom - deltaY * WheelFactor > MaxZoom ==> z == MaxZoom
  {
    var candidate := zoom + deltaY * -WheelFactor;
    var raised := if MinZoom > candidate then MinZoom else candidate;
    if raised < MaxZoom then raised else MaxZoom
  }

  /** `Math.min(prev + 0.5, 10)`. */
  function ZoomedIn(prev: real): (z: real)
    ensures z <= MaxZoom
    ensures prev + ZoomStep <= MaxZoom ==> z == prev + ZoomStep
    ensures prev + ZoomStep > MaxZoom ==> z == MaxZoom
  {
    if prev + ZoomStep < MaxZoom then prev + ZoomStep else MaxZoom
  }

  /** `Math.max(prev - 0.5, 1)`. */
  function ZoomedOut(prev: real): (z: real)
    ensures z >= MinZoom
    ensures prev - ZoomStep >= MinZoom ==> z == prev - ZoomStep
    ensures prev - ZoomStep < MinZoom ==> z == MinZoom
  {
    if prev - ZoomStep > MinZoom then prev - ZoomStep else MinZoom
  }

  /** Both buttons keep the zoom inside [1, 10] and move it towards their bound. */
  lemma ZoomButtonsStayInRange(z: real)
    requires MinZoom <= z <= MaxZoom
    ensures MinZoom <= ZoomedIn(z) <= MaxZoom && z <= ZoomedIn(z)
    ensures MinZoom <= ZoomedOut(z) <= MaxZoom && ZoomedOut(z) <= z
  {
  }

  /** Zooming in and then out returns to the start, unless the first step hit the ceiling. */
  lemma ZoomInThenOut(z: real)
    requires MinZoom <= z <= MaxZoom - ZoomStep
    ensures ZoomedOut(ZoomedIn(z)) == z
  {
  }

  /** Zooming out and then in returns to the start, unless the first step hit the floor. */
  lemma ZoomOutThenIn(z: real)
    requires MinZoom + ZoomStep <= z <= MaxZoom
    ensures ZoomedIn(ZoomedOut(z)) == z
  {
  }

  class Viewer {
    const dataset: string
    var zoom: real
    /** The pan offset in screen pixels. */
    var position: Point
    var isDragging: bool
    /** The press point minus the position at the press. */
    var dragStart: Point
    var imageLoaded: bool
    /** Set by the toolbar's annotation toggle. */
    var annotationActive: bool

    ghost predicate Valid()
      reads this
    {
      MinZoom <= zoom <= MaxZoom
    }

    constructor (dataset: string)
      ensures Valid()
      ensures this.dataset == dataset && zoom == 1.0 && position == Point(0.0, 0.0)
      ensures !isDragging && dragStart == Point(0.0, 0.0) && !imageLoaded && !annotationActive
    {
      this.dataset := dataset;
      zoom := 1.0;
      position := Point(0.0, 0.0);
      isDragging := false;
      dragStart := Point(0.0, 0.0);
      imageLoaded := false;
      annotationActive := false;
    }

    /** Panning is possible when the image is magnified and pins are not being placed. */
    predicate CanPan()
      reads this
    {
      zoom > 1.0 && !annotationActive
    }

    /** The mini-map is drawn only for a magnified, loaded image. */
    predicate ShowsMiniMap()
      reads this
    {
      zoom > 1.0 && imageLoaded
    }

    /** `disabled={zoom <= 1}`. */
    predicate ZoomOutEnabled()
      reads this
    {
      !(zoom <= MinZoom)
    }

    /** `disabled={zoom >= 10}`. */
    predicate ZoomInEnabled()
      reads this
    {
      !(zoom >= MaxZoom)
    }

    method Wheel(deltaY: real)
      requires Valid()
      modifies this
      ensures Valid()
      ensures zoom == WheelZoom(old(zoom), deltaY)
      ensures position == old(position) && isDragging == old(isDragging) && dragStart == old(dragStart)
      ensures imageLoaded == old(imageLoaded) && annotationActive == old(annotationActive)
    {
      zoom := WheelZoom(zoom, deltaY);
    }

    method ZoomIn()
      requires Valid()
      modifies this
      ensures Valid()
      ensures zoom == ZoomedIn(old(zoom))
      ensures position == old(position) && isDragging == old(isDragging) && dragStart == old(dragStart)
      ensures imageLoaded == old(imageLoaded) && annotationActive == old(annotationActive)
    {
      zoom := ZoomedIn(zoom);
      ZoomButtonsStayInRange(old(zoom));
    }

    /** The reset test reads the zoom before the click, not the new one. */
    method ZoomOut()
      requires Valid()
      modifies this
      ensures Valid()
      ensures zoom == ZoomedOut(old(zoom))
      ensures old(zoom) <= 1.5 ==> position == Point(0.0, 0.0)
      ensures old(zoom) > 1.5 ==> position == old(position)
      ensures isDragging == old(isDragging) && dragStart == old(dragStart)
      ensures imageLoaded == old(imageLoaded) && annotationActive == old(annotationActive)
    {
      var before := zoom;
      zoom := ZoomedOut(zoom);
      ZoomButtonsStayInRange(before);
      if before <= 1.5 {
        position := Point(0.0, 0.0);
      }
    }

    method MouseDown(client: Point)
      modifies this
      ensures old(CanPan()) ==> isDragging && dragStart == Point(client.x - old(position).x, client.y - old(position).y)
      ensures !old(CanPan()) ==> isDragging == old(isDragging) && dragStart == old(dragStart)
      ensures zoom == old(zoom) && position == old(position)
      ensures imageLoaded == old(imageLoaded) && annotationActive == old(annotationActive)
    {
      if zoom > 1.0 && !annotationActive {
        isDragging := true;
        dragStart := Point(client.x - position.x, client.y - position.y);
      }
    }

    method MouseMove(client: Point)
      modifies this
      ensures old(isDragging) && old(CanPan()) ==> position == Point(client.x - dragStart.x, client.y - dragStart.y)
      ensures !(old(isDragging) && old(CanPan())) ==> position == old(position)
      ensures zoom == old(zoom) && isDragging == old(isDragging) && dragStart == old(dragStart)
      ensures imageLoaded == old(imageLoaded) && annotationActive == old(annotationActive)
    {
      if isDragging && zoom > 1.0 && !annotationActive {
        position := Point(client.x - dragStart.x, client.y - dragStart.y);
      }
    }

    /** Releasing the button, and also the pointer leaving the image area. */
    method MouseUp()
      modifies this
      ensures !isDragging
      ensures zoom == old(zoom) && position == old(position) && dragStart == old(dragStart)
      ensures imageLoaded == old(imageLoaded) && annotationActive == old(annotationActive)
    {
      isDragging := false;
    }

    /** The mini-map reports a new position, which is taken as it is. */
    method MiniMapNavigate(x: real, y: real)
      modifies this
      ensures position == Point(x, y)
      ensures zoom == old(zoom) && isDragging == old(isDragging) && dragStart == old(dragStart)
      ensures imageLoaded == old(imageLoaded) && annotationActive == old(annotationActive)
    {
      position := Point(x, y);
    }

    method ImageLoaded()
      modifies this
      ensures imageLoaded
      ensures zoom == old(zoom) && position == old(position) && isDragging == old(isDragging)
      ensures dragStart == old(dragStart) && annotationActive == old(annotationActive)
    {
      imageLoaded := true;
    }

    /** The toolbar hands its new annotation flag to this setter. */
    method SetAnnotationActive(active: bool)
      modifies this
      ensures annotationActive == active
      ensures zoom == old(zoom) && position == old(position) && isDragging == old(isDragging)
      ensures dragStart == old(dragStart) && imageLoaded == old(imageLoaded)
    {
      annotationActive := active;
    }
  }

  /** In any reachable state a zoom button is disabled exactly at its own bound, and while
      enabled a click moves the zoom strictly in its direction; at the bound a click
      would change nothing, so disabling it hides no move. */
  lemma ZoomButtonsDisabledAtBounds(v: Viewer)
    requires v.Valid()
    ensures !v.ZoomOutEnabled() <==> v.zoom == MinZoom
    ensures !v.ZoomInEnabled() <==> v.zoom == MaxZoom
    ensures v.ZoomOutEnabled() ==> ZoomedOut(v.zoom) < v.zoom
    ensures v.ZoomInEnabled() ==> ZoomedIn(v.zoom) > v.zoom
    ensures !v.ZoomOutEnabled() ==> ZoomedOut(v.zoom) == v.zoom
    ensures !v.ZoomInEnabled() ==> ZoomedIn(v.zoom) == v.zoom
  {
  }

  /** A drag that comes back to where it was pressed leaves the image where it was:
      from any panned position, press at `press`, wander to `elsewhere`, return to `press`. */
  method DragThereAndBack(start: Point, press: Point, elsewhere: Point) returns (wandered: Point, final: Point)
    ensures wandered == Point(start.x + (elsewhere.x - press.x), start.y + (elsewhere.y - press.y))
    ensures final == start
  {
    var v := new Viewer("earth");
    v.ZoomIn();
    v.MiniMapNavigate(start.x, start.y);
    v.MouseDown(press);
    v.MouseMove(elsewhere);
    wandered := v.position;
    v.MouseMove(press);
    final := v.position;
  }

  /** With annotation mode on, a press does not start a drag and the image cannot be moved. */
  method AnnotationModeBlocksPanning(press: Point, moveTo: Point) returns (dragging: bool, final: Point)
    ensures !dragging && final == Point(0.0, 0.0)
  {
    var v := new Viewer("mars");
    v.ZoomIn();
    v.SetAnnotationActive(true);
    v.MouseDown(press);
    v.MouseMove(moveTo);
    dragging, final := v.isDragging, v.position;
  }

  /** Zooming back out from 1.5 recentres the image even after panning, and hides the mini-map. */
  method ZoomOutRecentres(pan: Point) returns (zoom: real, final: Point, miniMap: bool)
    ensures zoom == 1.0 && final == Point(0.0, 0.0) && !miniMap
  {
    var v := new Viewer("moon");
    v.ImageLoaded();
    v.ZoomIn();
    v.MiniMapNavigate(pan.x, pan.y);
    v.ZoomOut();
    zoom, final, miniMap := v.zoom, v.position, v.ShowsMiniMap();
  }
}
