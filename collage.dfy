/** The photo editor's 4x6 inch print collage (photo-editor/src/collage/collage.js):
    an ordered stack of placed photos with one selection, millimetre sizes
    converted to pixels at 300 DPI, a topmost-first hit test on the
    border-inflated boxes, and edge snapping while a photo is dragged.
    Coordinates are exact reals; drawing on the canvas is modelled as taking
    a snapshot of the scene. */
module Collage {
  import opened Common

  const Dpi: real := 300.0
  const InchToMm: real := 25.4
  /** Distance, in pixels, under which an edge snaps to a line. */
  const SnapThreshold: real := 30.0
  /** Where a newly added photo is placed. */
  const DefaultPosition: real := 50.0
  const NoImageAlert: string := "Please upload an image first."
  const NoWidthAlert: string := "Please specify width."

  /** `Date.now()` at the time a photo was added: always positive, so a
      present id is always truthy. */
  type Id = i: int | i > 0 witness 1

  /** Natural size of a loaded picture, in pixels. */
  type Dimension = r: real | r > 0.0 witness 1.0

  datatype Bitmap = Bitmap(width: Dimension, height: Dimension)

  /** One placed photo; `x`, `y`, `width`, `height` in canvas pixels, the
      border thickness in millimetres. */
  datatype PlacedImage = PlacedImage(
    id: Id,
    img: Bitmap,
    x: real,
    y: real,
    width: real,
    height: real,
    borderColor: string,
    borderThickness: real)

  /** A guide line drawn while snapping. */
  datatype Guide = Vertical(x: real) | Horizontal(y: real)

  /** What one `render()` puts on the canvas: its size, the photos bottom to
      top, and the photo outlined as selected. */
  datatype Frame = Frame(width: real, height: real, images: seq<PlacedImage>, highlighted: Option<Id>)

  /** `mmToPx`: millimetres to pixels at 300 dots per 25.4 mm inch. */
  function MmToPx(mm: real): (px: real)
    ensures px * InchToMm == mm * Dpi
    ensures px > 0.0 <==> mm > 0.0
  {
    (mm / InchToMm) * Dpi
  }

  /** Converting back: pixels to millimetres. */
  function PxToMm(px: real): (mm: real)
    ensures mm * Dpi == px * InchToMm
  {
    px * InchToMm / Dpi
  }

  lemma MmToPxRoundTrip(mm: real)
    ensures PxToMm(MmToPx(mm)) == mm
  {
  }

  // ---------------------------------------------------------------------
  // Border-inflated boxes

  function BorderPx(o: PlacedImage): real {
    MmToPx(o.borderThickness)
  }

  function Left(o: PlacedImage): real { o.x - BorderPx(o) }
  function Right(o: PlacedImage): real { o.x + o.width + BorderPx(o) }
  function Top(o: PlacedImage): real { o.y - BorderPx(o) }
  function Bottom(o: PlacedImage): real { o.y + o.height + BorderPx(o) }

  /** The point lies in the closed box of the photo grown by its border. */
  predicate Covers(o: PlacedImage, x: real, y: real) {
    Left(o) <= x <= Right(o) && Top(o) <= y <= Bottom(o)
  }

  /** `images.find(i => i.id === id)`: the first photo with that id. */
  function FindIndex(images: seq<PlacedImage>, id: Id): (r: Option<nat>)
    ensures r.Some? ==> (r.value < |images| && images[r.value].id == id
      && forall k :: 0 <= k < r.value ==> images[k].id != id)
    ensures r.None? ==> forall k :: 0 <= k < |images| ==> images[k].id != id
  {
    if images == [] then None
    else if images[0].id == id then Some(0)
    else match FindIndex(images[1..], id)
      case None => None
      case Some(i) => Some(i + 1)
  }

  /** The hit test of `mousedown`: scanning from the top of the stack down,
      the first photo whose inflated box holds the point. */
  method TopmostHit(images: seq<PlacedImage>, x: real, y: real) returns (hit: Option<nat>)
    ensures hit.Some? ==> (hit.value < |images| && Covers(images[hit.value], x, y)
      && forall j :: hit.value < j < |images| ==> !Covers(images[j], x, y))
    ensures hit.None? ==> forall j :: 0 <= j < |images| ==> !Covers(images[j], x, y)
  {
    hit := None;
    var i := |images|;
    while i > 0
      invariant 0 <= i <= |images|
      invariant hit.None?
      invariant forall j :: i <= j < |images| ==> !Covers(images[j], x, y)
    {
      i := i - 1;
      if Covers(images[i], x, y) {
        hit := Some(i);
        break;
      }
    }
  }

  // ---------------------------------------------------------------------
  // Snap lines

  /** The photos other than the one with id `id`, in stack order. */
  function Others(images: seq<PlacedImage>, id: Id): (r: seq<PlacedImage>)
    ensures |r| <= |images|
  {
    if images == [] then []
    else
      var last := images[|images| - 1];
      Others(images[..|images| - 1], id) + (if last.id != id then [last] else [])
  }

  /** Exactly the photos with another id are kept. */
  lemma {:induction false} OthersMembers(images: seq<PlacedImage>, id: Id)
    ensures forall o :: o in Others(images, id) <==> o in images && o.id != id
  {
    if images != [] {
      var init := images[..|images| - 1];
      OthersMembers(init, id);
      assert images == init + [images[|images| - 1]];
    }
  }

  lemma OthersSnoc(images: seq<PlacedImage>, o: PlacedImage, id: Id)
    ensures Others(images + [o], id) == Others(images, id) + (if o.id != id then [o] else [])
  {
    assert (images + [o])[..|images|] == images;
  }

  lemma EdgesSnoc(objs: seq<PlacedImage>, o: PlacedImage)
    ensures XEdges(objs + [o]) == XEdges(objs) + [Left(o), Right(o)]
    ensures YEdges(objs + [o]) == YEdges(objs) + [Top(o), Bottom(o)]
  {
    assert (objs + [o])[..|objs|] == objs;
  }

  /** Left then right inflated edge of every photo, in order. */
  function XEdges(objs: seq<PlacedImage>): (r: seq<real>)
    ensures |r| == 2 * |objs|
  {
    if objs == [] then []
    else XEdges(objs[..|objs| - 1]) + [Left(objs[|objs| - 1]), Right(objs[|objs| - 1])]
  }

  /** Entries 2k and 2k+1 are the left and right edges of photo k. */
  lemma {:induction false} XEdgesAt(objs: seq<PlacedImage>, k: nat)
    requires k < |objs|
    ensures XEdges(objs)[2 * k] == Left(objs[k]) && XEdges(objs)[2 * k + 1] == Right(objs[k])
    decreases |objs|
  {
    if k < |objs| - 1 {
      XEdgesAt(objs[..|objs| - 1], k);
    }
  }

  /** Top then bottom inflated edge of every photo, in order. */
  function YEdges(objs: seq<PlacedImage>): (r: seq<real>)
    ensures |r| == 2 * |objs|
  {
    if objs == [] then []
    else YEdges(objs[..|objs| - 1]) + [Top(objs[|objs| - 1]), Bottom(objs[|objs| - 1])]
  }

  /** Entries 2k and 2k+1 are the top and bottom edges of photo k. */
  lemma {:induction false} YEdgesAt(objs: seq<PlacedImage>, k: nat)
    requires k < |objs|
    ensures YEdges(objs)[2 * k] == Top(objs[k]) && YEdges(objs)[2 * k + 1] == Bottom(objs[k])
    decreases |objs|
  {
    if k < |objs| - 1 {
      YEdgesAt(objs[..|objs| - 1], k);
    }
  }

  /** The vertical lines a moving photo may snap to: the canvas's left edge,
      right edge and centre, then the inflated edges of every other photo. */
  function SnapLinesX(images: seq<PlacedImage>, id: Id, canvasWidth: real): seq<real> {
    [0.0, canvasWidth, canvasWidth / 2.0] + XEdges(Others(images, id))
  }

  /** The horizontal lines, likewise. */
  function SnapLinesY(images: seq<PlacedImage>, id: Id, canvasHeight: real): seq<real> {
    [0.0, canvasHeight, canvasHeight / 2.0] + YEdges(Others(images, id))
  }

  /** A line is a candidate exactly when it is a canvas line or an edge of a
      photo with another id: the photo being dragged never contributes. */
  lemma SnapLinesXMembers(images: seq<PlacedImage>, id: Id, canvasWidth: real, line: real)
    ensures line in SnapLinesX(images, id, canvasWidth)
      <==> (line == 0.0 || line == canvasWidth || line == canvasWidth / 2.0
            || exists o :: o in images && o.id != id && (line == Left(o) || line == Right(o)))
  {
    var others := Others(images, id);
    var edges := XEdges(others);
    OthersMembers(images, id);
    if line in edges {
      var k :| 0 <= k < |edges| && edges[k] == line;
      var o := others[k / 2];
      XEdgesAt(others, k / 2);
      assert k == 2 * (k / 2) || k == 2 * (k / 2) + 1;
      assert o in others;
    }
    if exists o :: o in images && o.id != id && (line == Left(o) || line == Right(o)) {
      var o :| o in images && o.id != id && (line == Left(o) || line == Right(o));
      assert o in others;
      var k :| 0 <= k < |others| && others[k] == o;
      XEdgesAt(others, k);
    }
  }

  /** The horizontal candidates, likewise. */
  lemma SnapLinesYMembers(images: seq<PlacedImage>, id: Id, canvasHeight: real, line: real)
    ensures line in SnapLinesY(images, id, canvasHeight)
      <==> (line == 0.0 || line == canvasHeight || line == canvasHeight / 2.0
            || exists o :: o in images && o.id != id && (line == Top(o) || line == Bottom(o)))
  {
    var others := Others(images, id);
    var edges := YEdges(others);
    OthersMembers(images, id);
    if line in edges {
      var k :| 0 <= k < |edges| && edges[k] == line;
      var o := others[k / 2];
      YEdgesAt(others, k / 2);
      assert k == 2 * (k / 2) || k == 2 * (k / 2) + 1;
      assert o in others;
    }
    if exists o :: o in images && o.id != id && (line == Top(o) || line == Bottom(o)) {
      var o :| o in images && o.id != id && (line == Top(o) || line == Bottom(o));
      assert o in others;
      var k :| 0 <= k < |others| && others[k] == o;
      YEdgesAt(others, k);
    }
  }

  /** One more photo visited by `getSnapLines`: its edges are added unless
      it has the current id. */
  lemma SnapLinesStep(images: seq<PlacedImage>, k: nat, id: Id, canvasWidth: real, canvasHeight: real)
    requires k < |images|
    ensures images[k].id != id ==> (SnapLinesX(images[..k + 1], id, canvasWidth)
      == SnapLinesX(images[..k], id, canvasWidth) + [Left(images[k]), Right(images[k])])
    ensures images[k].id != id ==> (SnapLinesY(images[..k + 1], id, canvasHeight)
      == SnapLinesY(images[..k], id, canvasHeight) + [Top(images[k]), Bottom(images[k])])
    ensures images[k].id == id ==> (SnapLinesX(images[..k + 1], id, canvasWidth) == SnapLinesX(images[..k], id, canvasWidth)
      && SnapLinesY(images[..k + 1], id, canvasHeight) == SnapLinesY(images[..k], id, canvasHeight))
  {
    var img := images[k];
    var o := Others(images[..k], id);
    assert images[..k + 1] == images[..k] + [img];
    OthersSnoc(images[..k], img, id);
    if img.id != id {
      EdgesSnoc(o, img);
    } else {
      assert o + [] == o;
    }
  }

  /** `getSnapLines(current)`: the canvas lines pushed first, then one pass
      over the photos skipping the one with the current photo's id. */
  method GetSnapLines(images: seq<PlacedImage>, current: PlacedImage, canvasWidth: real, canvasHeight: real)
    returns (xs: seq<real>, ys: seq<real>)
    ensures xs == SnapLinesX(images, current.id, canvasWidth)
    ensures ys == SnapLinesY(images, current.id, canvasHeight)
  {
    xs := [0.0, canvasWidth, canvasWidth / 2.0];
    ys := [0.0, canvasHeight, canvasHeight / 2.0];
    assert images[..0] == [];
    var k := 0;
    while k < |images|
      invariant 0 <= k <= |images|
      invariant xs == SnapLinesX(images[..k], current.id, canvasWidth)
      invariant ys == SnapLinesY(images[..k], current.id, canvasHeight)
    {
      var img := images[k];
      SnapLinesStep(images, k, current.id, canvasWidth, canvasHeight);
      if img.id != current.id {
        xs := xs + [Left(img), Right(img)];
        ys := ys + [Top(img), Bottom(img)];
      }
      k := k + 1;
    }
    assert images[..|images|] == images;
  }

  // ---------------------------------------------------------------------
  // Snapping one axis

  function Abs(r: real): (a: real)
    ensures a >= 0.0 && (a == r || a == -r)
  {
    if r < 0.0 then -r else r
  }

  /** An edge snaps to a line strictly closer than the threshold. */
  predicate Within(line: real, edge: real) {
    Abs(edge - line) < SnapThreshold
  }

  /** The first line, in list order, that the edge snaps to. */
  function FirstWithin(lines: seq<real>, edge: real): (r: Option<nat>)
    ensures r.Some? ==> r.value < |lines|
  {
    if lines == [] then None
    else if Within(lines[0], edge) then Some(0)
    else match FirstWithin(lines[1..], edge)
      case None => None
      case Some(i) => Some(i + 1)
  }

  /** `FirstWithin` finds the earliest line within reach, and finds none
      only when no line is. */
  lemma {:induction false} FirstWithinSpec(lines: seq<real>, edge: real)
    ensures var r := FirstWithin(lines, edge);
      && (r.Some? ==> (Within(lines[r.value], edge) && forall k :: 0 <= k < r.value ==> !Within(lines[k], edge)))
      && (r.None? ==> forall k :: 0 <= k < |lines| ==> !Within(lines[k], edge))
    decreases |lines|
  {
    if lines != [] && !Within(lines[0], edge) {
      FirstWithinSpec(lines[1..], edge);
      assert forall k :: 1 <= k < |lines| ==> lines[k] == lines[1..][k - 1];
    }
  }

  /** The resolved position of one axis and the guide drawn for it: the
      leading edge (left or top, outside the border) snaps to the first line
      within reach; only when it snaps to none is the trailing edge (right
      or bottom) tried the same way; with neither the position is kept. */
  function SnapTarget(pos: real, border: real, size: real, lines: seq<real>): (real, Option<real>)
  {
    match FirstWithin(lines, pos - border)
    case Some(i) => (lines[i] + border, Some(lines[i]))
    case None =>
      match FirstWithin(lines, pos + size + border)
      case Some(j) => (lines[j] - size - border, Some(lines[j]))
      case None => (pos, None)
  }

  /** What snapping one axis guarantees: a guide is drawn exactly when some
      line is within reach of the leading or the trailing edge; the guide
      is one of the lines and the edge lands exactly on it, the leading edge
      whenever it can; the photo moves less than the threshold, and not at
      all without a guide. */
  lemma SnapTargetProperties(pos: real, border: real, size: real, lines: seq<real>)
    ensures var r := SnapTarget(pos, border, size, lines);
      && (r.1.None? <==> forall k :: 0 <= k < |lines| ==> !Within(lines[k], pos - border) && !Within(lines[k], pos + size + border))
      && (r.1.None? ==> r.0 == pos)
      && (r.1.Some? ==> r.1.value in lines && Abs(r.0 - pos) < SnapThreshold)
      && ((exists k :: 0 <= k < |lines| && Within(lines[k], pos - border)) ==> r.0 - border == r.1.value)
      && ((forall k :: 0 <= k < |lines| ==> !Within(lines[k], pos - border)) && r.1.Some? ==> r.0 + size + border == r.1.value)
  {
    FirstWithinSpec(lines, pos - border);
    FirstWithinSpec(lines, pos + size + border);
    var lead, trail := FirstWithin(lines, pos - border), FirstWithin(lines, pos + size + border);
    if trail.Some? {
      assert !(forall k :: 0 <= k < |lines| ==> !Within(lines[k], pos + size + border));
    }
    if lead.Some? {
      assert !(forall k :: 0 <= k < |lines| ==> !Within(lines[k], pos - border));
    }
  }

  /** Of several lines within reach of the leading edge, the earliest in the
      list wins, even when a later one is closer. */
  lemma SnapTargetFirstWins(pos: real, border: real, size: real, lines: seq<real>, i: nat)
    requires i < |lines| && Within(lines[i], pos - border)
    requires forall k :: 0 <= k < i ==> !Within(lines[k], pos - border)
    ensures SnapTarget(pos, border, size, lines) == (lines[i] + border, Some(lines[i]))
  {
    FirstWithinSpec(lines, pos - border);
    var f := FirstWithin(lines, pos - border);
    assert f.Some?;
    assert f.value == i;
  }

  /** The snap loops of `mousemove` for one axis: a pass over the lines for
      the leading edge that stops at the first match, then, when it found
      none, a second pass for the trailing edge. */
  method SnapAxis(pos: real, border: real, size: real, lines: seq<real>) returns (newPos: real, guide: Option<real>)
    ensures (newPos, guide) == SnapTarget(pos, border, size, lines)
  {
    FirstWithinSpec(lines, pos - border);
    FirstWithinSpec(lines, pos + size + border);
    newPos := pos;
    guide := None;
    var snapped := false;
    var i := 0;
    while i < |lines|
      invariant 0 <= i <= |lines|
      invariant !snapped && newPos == pos && guide.None?
      invariant forall k :: 0 <= k < i ==> !Within(lines[k], pos - border)
    {
      if Abs((newPos - border) - lines[i]) < SnapThreshold {
        newPos := lines[i] + border;
        snapped := true;
        guide := Some(lines[i]);
        assert FirstWithin(lines, pos - border) == Some(i);
        break;
      }
      i := i + 1;
    }
    if !snapped {
      assert FirstWithin(lines, pos - border).None?;
      var j := 0;
      while j < |lines|
        invariant 0 <= j <= |lines|
        invariant !snapped && newPos == pos && guide.None?
        invariant forall k :: 0 <= k < j ==> !Within(lines[k], pos + size + border)
      {
        if Abs((newPos + size + border) - lines[j]) < SnapThreshold {
          newPos := lines[j] - size - border;
          snapped := true;
          guide := Some(lines[j]);
          assert FirstWithin(lines, pos + size + border) == Some(j);
          break;
        }
        j := j + 1;
      }
    }
  }

  /** The guides recorded by one move: at most one vertical and one
      horizontal. */
  function GuidesOf(gx: Option<real>, gy: Option<real>): seq<Guide>
  {
    (if gx.Some? then [Vertical(gx.value)] else []) + (if gy.Some? then [Horizontal(gy.value)] else [])
  }

  /** At most two guides: a vertical one exactly when the x axis snapped,
      a horizontal one exactly when the y axis did. */
  lemma GuidesOfShape(gx: Option<real>, gy: Option<real>)
    ensures |GuidesOf(gx, gy)| <= 2
    ensures gx.Some? <==> Vertical(gx.GetOr(0.0)) in GuidesOf(gx, gy)
    ensures gy.Some? <==> Horizontal(gy.GetOr(0.0)) in GuidesOf(gx, gy)
    ensures forall g :: g in GuidesOf(gx, gy) ==> (g.Vertical? && gx == Some(g.x)) || (g.Horizontal? && gy == Some(g.y))
  {
  }

  /** Height of a photo given only its width: the picture's aspect ratio is
      kept. */
  function AutoHeight(widthPx: real, img: Bitmap): (h: real)
    ensures h * img.width == widthPx * img.height
  {
    widthPx / (img.width / img.height)
  }

  /** Where a drag leaves the photo `obj` whose unsnapped position is
      (newX, newY), and the guides drawn: each axis resolved by `SnapTarget`
      against the lines of the other photos and the canvas. */
  function Dragged(images: seq<PlacedImage>, obj: PlacedImage, newX: real, newY: real,
                   canvasWidth: real, canvasHeight: real): (PlacedImage, seq<Guide>)
  {
    var sx := SnapTarget(newX, BorderPx(obj), obj.width, SnapLinesX(images, obj.id, canvasWidth));
    var sy := SnapTarget(newY, BorderPx(obj), obj.height, SnapLinesY(images, obj.id, canvasHeight));
    (obj.(x := sx.0, y := sy.0), GuidesOf(sx.1, sy.1))
  }

  /** A drag changes only the photo's position, moves it less than the
      threshold on each axis from the unsnapped position, and keeps it
      exactly there on an axis without a guide; at most one guide per axis. */
  lemma DraggedMovesLittle(images: seq<PlacedImage>, obj: PlacedImage, newX: real, newY: real,
                           canvasWidth: real, canvasHeight: real)
    ensures var (moved, guides) := Dragged(images, obj, newX, newY, canvasWidth, canvasHeight);
      moved == obj.(x := moved.x, y := moved.y)
      && Abs(moved.x - newX) < SnapThreshold && Abs(moved.y - newY) < SnapThreshold
      && |guides| <= 2
      && ((forall g :: g in guides ==> !g.Vertical?) ==> moved.x == newX)
      && ((forall g :: g in guides ==> !g.Horizontal?) ==> moved.y == newY)
  {
    var sx := SnapTarget(newX, BorderPx(obj), obj.width, SnapLinesX(images, obj.id, canvasWidth));
    var sy := SnapTarget(newY, BorderPx(obj), obj.height, SnapLinesY(images, obj.id, canvasHeight));
    SnapTargetProperties(newX, BorderPx(obj), obj.width, SnapLinesX(images, obj.id, canvasWidth));
    SnapTargetProperties(newY, BorderPx(obj), obj.height, SnapLinesY(images, obj.id, canvasHeight));
    GuidesOfShape(sx.1, sy.1);
  }

  /** The body of `mousemove` for the dragged photo: the snap lines are
      gathered, each axis is resolved, and the photo is moved there. */
  method DragTo(images: seq<PlacedImage>, obj: PlacedImage, newX: real, newY: real,
                canvasWidth: real, canvasHeight: real)
    returns (moved: PlacedImage, guides: seq<Guide>)
    ensures (moved, guides) == Dragged(images, obj, newX, newY, canvasWidth, canvasHeight)
  {
    var bPx := MmToPx(obj.borderThickness);
    var xs, ys := GetSnapLines(images, obj, canvasWidth, canvasHeight);
    var snappedX, gx := SnapAxis(newX, bPx, obj.width, xs);
    var snappedY, gy := SnapAxis(newY, bPx, obj.height, ys);
    guides := GuidesOf(gx, gy);
    moved := obj.(x := snappedX, y := snappedY);
  }

  // ---------------------------------------------------------------------
  // The editor

  const PortraitWidth: real := 4.0 * Dpi
  const PortraitHeight: real := 6.0 * Dpi

  /** The collage's module state and its event handlers. */
  class CollageEditor {
    var canvasWidth: real
    var canvasHeight: real
    var isLandscape: bool
    var images: seq<PlacedImage>
    var selectedId: Option<Id>
    var isDragging: bool
    var dragStartX: real
    var dragStartY: real
    var originX: real
    var originY: real
    var activeGuides: seq<Guide>
    /** The picture uploaded and waiting to be added. */
    var loadedImage: Option<Bitmap>

    /** The canvas is 4x6 inches at 300 DPI, turned by the orientation. */
    ghost predicate Valid()
      reads this
    {
      if isLandscape then canvasWidth == PortraitHeight && canvasHeight == PortraitWidth
      else canvasWidth == PortraitWidth && canvasHeight == PortraitHeight
    }

    constructor()
      ensures Valid() && !isLandscape
      ensures images == [] && selectedId == None && !isDragging
      ensures activeGuides == [] && loadedImage == None
    {
      canvasWidth, canvasHeight, isLandscape := PortraitWidth, PortraitHeight, false;
      images, selectedId, isDragging := [], None, false;
      dragStartX, dragStartY, originX, originY := 0.0, 0.0, 0.0, 0.0;
      activeGuides, loadedImage := [], None;
    }

    /** What `render()` draws from the current state. */
    function Scene(): Frame
      reads this
    {
      Frame(canvasWidth, canvasHeight, images, selectedId)
    }

    /** The upload's `img.onload`: the picture waits to be added. */
    method LoadImage(img: Bitmap)
      modifies this`loadedImage
      ensures loadedImage == Some(img)
      ensures images == old(images) && selectedId == old(selectedId)
      ensures canvasWidth == old(canvasWidth) && canvasHeight == old(canvasHeight) && isLandscape == old(isLandscape)
    {
      loadedImage := Some(img);
    }

    /** The "Add to Canvas" click. Widths and heights are the numbers typed
        in millimetres, 0 standing for an empty field; `now` is
        `Date.now()`. Without a loaded picture or a width nothing changes and
        the alert is returned; otherwise the photo is put on top at (50, 50),
        selected, and the loaded picture is consumed. */
    method Add(widthMm: real, heightMm: real, borderColor: string, borderThickness: real, now: Id)
      returns (alert: Option<string>)
      requires Valid()
      modifies this`images, this`selectedId, this`loadedImage
      ensures Valid()
      ensures canvasWidth == old(canvasWidth) && canvasHeight == old(canvasHeight) && isLandscape == old(isLandscape)
      ensures isDragging == old(isDragging) && activeGuides == old(activeGuides)
      ensures old(loadedImage).None? ==> (alert == Some(NoImageAlert)
        && images == old(images) && selectedId == old(selectedId) && loadedImage == old(loadedImage))
      ensures old(loadedImage).Some? && widthMm == 0.0 ==> (alert == Some(NoWidthAlert)
        && images == old(images) && selectedId == old(selectedId) && loadedImage == old(loadedImage))
      ensures old(loadedImage).Some? && widthMm != 0.0 ==> (alert == None
        && images == old(images) + [PlacedImage(now, old(loadedImage).value, DefaultPosition, DefaultPosition,
             MmToPx(widthMm),
             if heightMm != 0.0 then MmToPx(heightMm) else AutoHeight(MmToPx(widthMm), old(loadedImage).value),
             borderColor, borderThickness)]
        && selectedId == Some(now) && loadedImage == None)
    {
      if loadedImage.None? {
        return Some(NoImageAlert);
      }
      if widthMm == 0.0 {
        return Some(NoWidthAlert);
      }
      var img := loadedImage.value;
      var widthPx := MmToPx(widthMm);
      var heightPx;
      if heightMm != 0.0 {
        heightPx := MmToPx(heightMm);
      } else {
        var aspect := img.width / img.height;
        heightPx := widthPx / aspect;
      }
      var obj := PlacedImage(now, img, DefaultPosition, DefaultPosition, widthPx, heightPx, borderColor, borderThickness);
      images := images + [obj];
      selectedId := Some(obj.id);
      loadedImage := None;
      alert := None;
    }

    /** "Update Selected / Default": the first photo with the selected id
        takes the border colour and thickness; nothing else changes, and
        nothing at all without a selection. */
    method UpdateBorder(borderColor: string, borderThickness: real)
      modifies this`images
      ensures |images| == |old(images)| && selectedId == old(selectedId)
      ensures canvasWidth == old(canvasWidth) && canvasHeight == old(canvasHeight) && isLandscape == old(isLandscape)
      ensures old(selectedId).None? ==> images == old(images)
      ensures old(selectedId).Some? ==> match FindIndex(old(images), old(selectedId).value)
        case None => images == old(images)
        case Some(i) => images == old(images)[i := old(images)[i].(borderColor := borderColor, borderThickness := borderThickness)]
    {
      if selectedId.Some? {
        var found := FindIndex(images, selectedId.value);
        if found.Some? {
          var i := found.value;
          images := images[i := images[i].(borderColor := borderColor, borderThickness := borderThickness)];
        }
      }
    }

    /** The orientation button: landscape and portrait swap, and so do the
        canvas width and height. */
    method ToggleOrientation()
      requires Valid()
      modifies this`isLandscape, this`canvasWidth, this`canvasHeight
      ensures Valid()
      ensures isLandscape == !old(isLandscape)
      ensures canvasWidth == old(canvasHeight) && canvasHeight == old(canvasWidth)
      ensures images == old(images) && selectedId == old(selectedId)
    {
      isLandscape := !isLandscape;
      var temp := canvasWidth;
      canvasWidth := canvasHeight;
      canvasHeight := temp;
    }

    /** `mousedown` at canvas point (x, y): the topmost photo under the
        point becomes the selection (no photo: no selection). On a hit a
        drag starts from the first photo with that id and its border values
        are returned, to be shown in the border controls. */
    method MouseDown(x: real, y: real) returns (tools: Option<(string, real)>)
      modifies this`selectedId, this`isDragging, this`dragStartX, this`dragStartY, this`originX, this`originY
      ensures images == old(images)
      ensures canvasWidth == old(canvasWidth) && canvasHeight == old(canvasHeight) && isLandscape == old(isLandscape)
      ensures selectedId.None? <==> forall j :: 0 <= j < |images| ==> !Covers(images[j], x, y)
      ensures selectedId.Some? ==> exists i :: (0 <= i < |images| && images[i].id == selectedId.value
        && Covers(images[i], x, y) && forall j :: i < j < |images| ==> !Covers(images[j], x, y))
      ensures selectedId.None? ==> (tools.None? && isDragging == old(isDragging)
        && dragStartX == old(dragStartX) && dragStartY == old(dragStartY)
        && originX == old(originX) && originY == old(originY))
      ensures selectedId.Some? ==> (FindIndex(images, selectedId.value).Some? && isDragging
        && dragStartX == x && dragStartY == y
        && var obj := images[FindIndex(images, selectedId.value).value];
           originX == obj.x && originY == obj.y && tools == Some((obj.borderColor, obj.borderThickness)))
    {
      var hit := TopmostHit(images, x, y);
      tools := None;
      if hit.None? {
        selectedId := None;
      } else {
        var clickedId := images[hit.value].id;
        selectedId := Some(clickedId);
        isDragging := true;
        dragStartX, dragStartY := x, y;
        var found := FindIndex(images, clickedId);
        var obj := images[found.value];
        originX, originY := obj.x, obj.y;
        tools := Some((obj.borderColor, obj.borderThickness));
      }
    }

    /** `mouseup` anywhere in the window ends the drag. */
    method MouseUp()
      modifies this`isDragging
      ensures !isDragging
      ensures images == old(images) && selectedId == old(selectedId)
      ensures canvasWidth == old(canvasWidth) && canvasHeight == old(canvasHeight) && isLandscape == old(isLandscape)
    {
      isDragging := false;
    }

    /** `mousemove` at canvas point (x, y) while dragging the selection: the
        photo follows the pointer relative to where the drag started, each
        axis snaps as `SnapTarget` says against the canvas lines and the
        other photos' edges, and the guides are the ones of this move only.
        Without a drag, a selection or a photo with that id nothing
        changes. */
    method MouseMove(x: real, y: real)
      modifies this`images, this`activeGuides
      ensures canvasWidth == old(canvasWidth) && canvasHeight == old(canvasHeight) && isLandscape == old(isLandscape)
      ensures selectedId == old(selectedId) && isDragging == old(isDragging)
      ensures |images| == |old(images)|
      ensures (!old(isDragging) || old(selectedId).None? || FindIndex(old(images), old(selectedId).value).None?)
        ==> images == old(images) && activeGuides == old(activeGuides)
      ensures old(isDragging) && old(selectedId).Some? && FindIndex(old(images), old(selectedId).value).Some? ==>
        var i := FindIndex(old(images), old(selectedId).value).value;
        var (moved, guides) := Dragged(old(images), old(images)[i], old(originX) + (x - old(dragStartX)),
                                       old(originY) + (y - old(dragStartY)), old(canvasWidth), old(canvasHeight));
        images == old(images)[i := moved] && activeGuides == guides
    {
      if !isDragging || selectedId.None? {
        return;
      }
      var found := FindIndex(images, selectedId.value);
      if found.None? {
        return;
      }
      DragSelected(found.value, originX + (x - dragStartX), originY + (y - dragStartY));
    }

    /** The photo at index `i` is dragged to (newX, newY). */
    method DragSelected(i: nat, newX: real, newY: real)
      requires i < |images|
      modifies this`images, this`activeGuides
      ensures var (moved, guides) := Dragged(old(images), old(images)[i], newX, newY, canvasWidth, canvasHeight);
        images == old(images)[i := moved] && activeGuides == guides
    {
      var current := images;
      var moved, guides := DragTo(current, current[i], newX, newY, canvasWidth, canvasHeight);
      images, activeGuides := current[i := moved], guides;
    }

    /** "Download 4x6 Print": the exported frame is drawn with no selection
        outline, and the selection is restored afterwards. */
    method Download() returns (exported: Frame)
      modifies this`selectedId
      ensures exported == Frame(old(canvasWidth), old(canvasHeight), old(images), None)
      ensures selectedId == old(selectedId) && images == old(images)
      ensures canvasWidth == old(canvasWidth) && canvasHeight == old(canvasHeight) && isLandscape == old(isLandscape)
    {
      var prevSelection := selectedId;
      selectedId := None;
      exported := Scene();
      selectedId := prevSelection;
    }
  }

  /** Toggling the orientation twice gives back the original canvas. */
  method ToggleTwice(editor: CollageEditor)
    requires editor.Valid()
    modifies editor`isLandscape, editor`canvasWidth, editor`canvasHeight
    ensures editor.Valid()
    ensures editor.canvasWidth == old(editor.canvasWidth) && editor.canvasHeight == old(editor.canvasHeight)
    ensures editor.isLandscape == old(editor.isLandscape) && editor.images == old(editor.images)
  {
    editor.ToggleOrientation();
    editor.ToggleOrientation();
  }
}
