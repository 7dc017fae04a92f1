/** The geometry of `components/mini-map.tsx`: a 200 x 150 thumbnail on which a
    rectangle marks the part of the image the main viewer shows, and a click handler
    that turns a point on the thumbnail into a pan position for the main viewer.
    The canvas calls themselves are not modelled, only the numbers handed to them. */
module MiniMap {
  import opened ImageViewer

  const MapWidth: real := 200.0
  const MapHeight: real := 150.0

  datatype Rect = Rect(x: real, y: real, w: real, h: real)

  /** The size of the main viewer's container, in screen pixels. */
  datatype Size = Size(width: real, height: real)

  /** A container that has been measured, and a zoom factor that can be divided by. */
  predicate Measured(container: Size, zoom: real)
  {
    container.width > 0.0 && container.height > 0.0 && zoom > 0.0
  }

  function Min(a: real, b: real): real
  {
    if a < b then a else b
  }

  function Max(a: real, b: real): real
  {
    if a < b then b else a
  }

  /** `(containerSize.width / zoom) * (miniMapWidth / containerSize.width)`: the visible
      fraction of the width, scaled to the thumbnail; the container size cancels out. */
  function ViewportWidth(container: Size, zoom: real): (vw: real)
    requires Measured(container, zoom)
    ensures vw * zoom == MapWidth
    ensures zoom >= 1.0 ==> 0.0 < vw <= MapWidth
  {
    var cw := container.width;
    var vw := (cw / zoom) * (MapWidth / cw);
    assert vw * zoom == MapWidth by {
      assert (cw / zoom) * zoom == cw;
      assert (MapWidth / cw) * cw == MapWidth;
      calc {
        vw * zoom;
        ((cw / zoom) * zoom) * (MapWidth / cw);
        cw * (MapWidth / cw);
      }
    }
    vw
  }

  function ViewportHeight(container: Size, zoom: real): (vh: real)
    requires Measured(container, zoom)
    ensures vh * zoom == MapHeight
    ensures zoom >= 1.0 ==> 0.0 < vh <= MapHeight
  {
    var ch := container.height;
    var vh := (ch / zoom) * (MapHeight / ch);
    assert vh * zoom == MapHeight by {
      assert (ch / zoom) * zoom == ch;
      assert (MapHeight / ch) * ch == MapHeight;
      calc {
        vh * zoom;
        ((ch / zoom) * zoom) * (MapHeight / ch);
        ch * (MapHeight / ch);
      }
    }
    vh
  }

  /** The left edge before clamping: the thumbnail's centre, moved against the pan
      offset (scaled to the thumbnail), less half the rectangle. */
  function ViewportX(container: Size, zoom: real, position: Point): (vx: real)
    requires Measured(container, zoom)
    ensures position.x == 0.0 ==> vx + ViewportWidth(container, zoom) / 2.0 == MapWidth / 2.0
  {
    MapWidth / 2.0 - (position.x / zoom) * (MapWidth / container.width) - ViewportWidth(container, zoom) / 2.0
  }

  function ViewportY(container: Size, zoom: real, position: Point): (vy: real)
    requires Measured(container, zoom)
    ensures position.y == 0.0 ==> vy + ViewportHeight(container, zoom) / 2.0 == MapHeight / 2.0
  {
    MapHeight / 2.0 - (position.y / zoom) * (MapHeight / container.height) - ViewportHeight(container, zoom) / 2.0
  }

  /** The rectangle passed to `strokeRect`, `clearRect` and as destination to `drawImage`:
      the corner clamped into the thumbnail and the size capped at the thumbnail's. */
  function ViewportBox(container: Size, zoom: real, position: Point): (box: Rect)
    requires Measured(container, zoom)
    ensures box.x >= 0.0 && box.y >= 0.0
    ensures box.w <= MapWidth && box.h <= MapHeight
    ensures zoom >= 1.0 ==> box.x + box.w <= MapWidth && box.y + box.h <= MapHeight
    ensures zoom >= 1.0 ==> box.w * zoom == MapWidth && box.h * zoom == MapHeight
    ensures (var vx := ViewportX(container, zoom, position);
             0.0 <= vx <= MapWidth - ViewportWidth(container, zoom) ==> box.x == vx)
    ensures (var vy := ViewportY(container, zoom, position);
             0.0 <= vy <= MapHeight - ViewportHeight(container, zoom) ==> box.y == vy)
  {
    var vw := ViewportWidth(container, zoom);
    var vh := ViewportHeight(container, zoom);
    var vx := ViewportX(container, zoom, position);
    var vy := ViewportY(container, zoom, position);
    Rect(Max(0.0, Min(vx, MapWidth - vw)), Max(0.0, Min(vy, MapHeight - vh)), Min(vw, MapWidth), Min(vh, MapHeight))
  }

  /** With the image unpanned, the rectangle sits in the middle of the thumbnail. */
  lemma CentredWhenUnpanned(container: Size, zoom: real)
    requires Measured(container, zoom) && zoom >= 1.0
    ensures var box := ViewportBox(container, zoom, Point(0.0, 0.0));
      box.x + box.w / 2.0 == MapWidth / 2.0 && box.y + box.h / 2.0 == MapHeight / 2.0
  {
    var vw := ViewportWidth(container, zoom);
    var vh := ViewportHeight(container, zoom);
    var vx := ViewportX(container, zoom, Point(0.0, 0.0));
    var vy := ViewportY(container, zoom, Point(0.0, 0.0));
    assert 0.0 <= vx <= MapWidth - vw;
    assert 0.0 <= vy <= MapHeight - vh;
  }

  /** The part of the full-size picture copied into the rectangle: the rectangle scaled
      by the picture's size over the thumbnail's. */
  function SourceRect(box: Rect, imageWidth: real, imageHeight: real): (src: Rect)
    requires box.x >= 0.0 && box.y >= 0.0 && box.w >= 0.0 && box.h >= 0.0
    requires box.x + box.w <= MapWidth && box.y + box.h <= MapHeight
    requires imageWidth >= 0.0 && imageHeight >= 0.0
    ensures 0.0 <= src.x && src.x + src.w <= imageWidth
    ensures 0.0 <= src.y && src.y + src.h <= imageHeight
  {
    var sx := imageWidth / MapWidth;
    var sy := imageHeight / MapHeight;
    assert box.x * sx + box.w * sx <= imageWidth by {
      assert box.x * sx + box.w * sx == (box.x + box.w) * sx;
      assert MapWidth * sx == imageWidth;
    }
    assert box.y * sy + box.h * sy <= imageHeight by {
      assert box.y * sy + box.h * sy == (box.y + box.h) * sy;
      assert MapHeight * sy == imageHeight;
    }
    Rect(box.x * sx, box.y * sy, box.w * sx, box.h * sy)
  }

  /** For any zoom the main viewer can reach, the copied region lies inside the picture. */
  lemma SourceInsidePicture(container: Size, zoom: real, position: Point, imageWidth: real, imageHeight: real)
    requires Measured(container, zoom) && MinZoom <= zoom <= MaxZoom
    requires imageWidth >= 0.0 && imageHeight >= 0.0
    ensures var box := ViewportBox(container, zoom, position);
      box.w >= 0.0 && box.h >= 0.0 &&
      var src := SourceRect(box, imageWidth, imageHeight);
      0.0 <= src.x && src.x + src.w <= imageWidth && 0.0 <= src.y && src.y + src.h <= imageHeight
  {
    var box := ViewportBox(container, zoom, position);
    assert box.w * zoom == MapWidth && box.h * zoom == MapHeight;
    assert box.w > 0.0 && box.h > 0.0;
  }

  /** `handleClick`: the click's offset within the thumbnail, scaled to the container,
      measured from the container's centre and multiplied by the zoom. */
  function Click(container: Size, zoom: real, x: real, y: real): (target: Point)
    ensures x == MapWidth / 2.0 && y == MapHeight / 2.0 ==> target == Point(0.0, 0.0)
  {
    var cw := container.width;
    var ch := container.height;
    Point(((x / MapWidth) * cw - cw / 2.0) * zoom, ((y / MapHeight) * ch - ch / 2.0) * zoom)
  }

  /** Clicking at `x` moves the rectangle's centre to `MapWidth - x`: the handler mirrors
      the click, because the rectangle moves against the pan offset and the handler
      moves the pan offset with the click. */
  lemma ClickMirrorsRectangle(container: Size, zoom: real, x: real, y: real)
    requires Measured(container, zoom)
    ensures var target := Click(container, zoom, x, y);
      ViewportX(container, zoom, target) + ViewportWidth(container, zoom) / 2.0 == MapWidth - x &&
      ViewportY(container, zoom, target) + ViewportHeight(container, zoom) / 2.0 == MapHeight - y
  {
    MirrorOffset(container.width, zoom, MapWidth, x);
    MirrorOffset(container.height, zoom, MapHeight, y);
  }

  /** Along one axis of length `m` on the thumbnail and `c` on screen: the offset the
      click handler computes for a click at `x`, scaled back to the thumbnail. */
  lemma MirrorOffset(c: real, z: real, m: real, x: real)
    requires c > 0.0 && z > 0.0 && m > 0.0
    ensures ((((x / m) * c - c / 2.0) * z) / z) * (m / c) == x - m / 2.0
  {
    var t := ((x / m) * c - c / 2.0) * z;
    assert t / z == (x / m) * c - c / 2.0;
    assert ((x / m) * c) * (m / c) == x;
    assert (c / 2.0) * (m / c) == m / 2.0;
  }

  /** A click a quarter of the way across the top-left puts the rectangle's centre
      three quarters across, at the bottom right. */
  lemma QuarterClickLandsOpposite(container: Size, zoom: real)
    requires Measured(container, zoom)
    ensures var target := Click(container, zoom, 50.0, 37.5);
      ViewportX(container, zoom, target) + ViewportWidth(container, zoom) / 2.0 == 150.0 &&
      ViewportY(container, zoom, target) + ViewportHeight(container, zoom) / 2.0 == 112.5
  {
    ClickMirrorsRectangle(container, zoom, 50.0, 37.5);
  }

  /** The evidently intended conversion: the pan offset that brings the clicked point of
      the thumbnail to the centre of the main view. */
  function CentringClick(container: Size, zoom: real, x: real, y: real): (target: Point)
    ensures x == MapWidth / 2.0 && y == MapHeight / 2.0 ==> target == Point(0.0, 0.0)
  {
    var cw := container.width;
    var ch := container.height;
    Point((cw / 2.0 - (x / MapWidth) * cw) * zoom, (ch / 2.0 - (y / MapHeight) * ch) * zoom)
  }

  /** With the centring conversion the rectangle's centre lands on the click. */
  lemma CentringClickCentresRectangle(container: Size, zoom: real, x: real, y: real)
    requires Measured(container, zoom)
    ensures var target := CentringClick(container, zoom, x, y);
      ViewportX(container, zoom, target) + ViewportWidth(container, zoom) / 2.0 == x &&
      ViewportY(container, zoom, target) + ViewportHeight(container, zoom) / 2.0 == y
  {
    CentringOffset(container.width, zoom, MapWidth, x);
    CentringOffset(container.height, zoom, MapHeight, y);
  }

  /** The same axis for the centring conversion. */
  lemma CentringOffset(c: real, z: real, m: real, x: real)
    requires c > 0.0 && z > 0.0 && m > 0.0
    ensures ((((c / 2.0 - (x / m) * c) * z) / z) * (m / c)) == m / 2.0 - x
  {
    var t := (c / 2.0 - (x / m) * c) * z;
    assert t / z == c / 2.0 - (x / m) * c;
    assert ((x / m) * c) * (m / c) == x;
    assert (c / 2.0) * (m / c) == m / 2.0;
  }
}
