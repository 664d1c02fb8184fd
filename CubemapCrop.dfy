/**
 * The rectangle arithmetic of the skybox face cropper
 * (Assets/Textures/SkyBox2/image_crop.py): where each of the six cube faces
 * comes from in a source image, how the boxes are clamped to the image, where
 * the preview pastes each face, and how a single region is cut into six strips.
 *
 * Image decoding, PIL cropping, resizing and saving are not modelled; an image
 * is its width and height, and a crop is its box.  Python integers are
 * unbounded and `//` on the non-negative widths used here is Dafny's `/`.
 */
module CubemapCrop {

  datatype Option<T> = None | Some(value: T)

  /** A PIL box: (left, top, right, bottom), right and bottom exclusive. */
  datatype Box = Box(left: int, top: int, right: int, bottom: int)

  datatype Face = Right | Left | Top | Bottom | Front | Back

  /** The faces in the order the face tables list them (and the loops visit them). */
  const Faces: seq<Face> := [Right, Left, Top, Bottom, Front, Back]

  function Max(a: int, b: int): int { if a >= b then a else b }
  function Min(a: int, b: int): int { if a <= b then a else b }

  function Width(b: Box): int { b.right - b.left }
  function Height(b: Box): int { b.bottom - b.top }

  /** The box lies within a w x h image. */
  predicate Inside(b: Box, w: int, h: int) {
    0 <= b.left && 0 <= b.top && b.right <= w && b.bottom <= h
  }

  /** The box is not inverted, so PIL can crop it. */
  predicate WellFormed(b: Box) {
    b.left <= b.right && b.top <= b.bottom
  }

  /** The two boxes share no pixel. */
  predicate Disjoint(a: Box, b: Box) {
    a.right <= b.left || b.right <= a.left || a.bottom <= b.top || b.bottom <= a.top
  }

  /** `generate_cubemap` reads a 4 x 3 cross when the image holds 4f x 3f pixels. */
  predicate UsesCross(w: int, h: int, f: int) {
    w >= f * 4 && h >= f * 3
  }

  /** The (column, row) of the face's cell in the 4 x 3 cross. */
  function CrossCell(face: Face): (int, int) {
    match face
    case Right => (2, 1)
    case Left => (0, 1)
    case Top => (1, 0)
    case Bottom => (1, 2)
    case Front => (1, 1)
    case Back => (3, 1)
  }

  /**
   * The face's square in the 4 x 3 cross of f x f cells: top above front,
   * bottom below it, and left, front, right, back along the middle row.
   */
  function CrossBox(f: int, face: Face): (b: Box)
    ensures var (col, row) := CrossCell(face);
      b == Box(f * col, f * row, f * (col + 1), f * (row + 1))
    ensures Width(b) == f && Height(b) == f
  {
    match face
    case Right => Box(f * 2, f, f * 3, f * 2)
    case Left => Box(0, f, f, f * 2)
    case Top => Box(f, 0, f * 2, f)
    case Bottom => Box(f, f * 2, f * 2, f * 3)
    case Front => Box(f, f, f * 2, f * 2)
    case Back => Box(f * 3, f, f * 4, f * 2)
  }

  /** Strip i of width fw and the given height, starting at x = i * fw. */
  function StripBox(fw: int, i: int, height: int): Box {
    Box(fw * i, 0, fw * (i + 1), height)
  }

  /**
   * The face table of `generate_cubemap`, in face order: the cross boxes, or
   * else six fw x fw squares side by side along the top, fw = w // 6.
   */
  function FaceBoxes(w: nat, h: nat, f: int): (r: seq<Box>)
    ensures |r| == |Faces|
  {
    if UsesCross(w, h, f) then seq(|Faces|, i requires 0 <= i < |Faces| => CrossBox(f, Faces[i]))
    else seq(|Faces|, i requires 0 <= i < |Faces| => StripBox(w / 6, i, w / 6))
  }

  /** Clamping to a w x h image: raise left and top to 0, lower right and bottom to w and h. */
  function Clamp(b: Box, w: nat, h: nat): (c: Box)
    ensures Inside(c, w, h)
    ensures b.left <= c.left && b.top <= c.top && c.right <= b.right && c.bottom <= b.bottom
    ensures Inside(b, w, h) <==> c == b
  {
    Box(Max(0, b.left), Max(0, b.top), Min(w, b.right), Min(h, b.bottom))
  }

  /** Clamping twice is clamping once. */
  lemma ClampIdempotent(b: Box, w: nat, h: nat)
    ensures Clamp(Clamp(b, w, h), w, h) == Clamp(b, w, h)
  {
  }

  /**
   * The face loop of `generate_cubemap`: for each face of the table, clamp
   * its box to the image.  Returns the boxes cropped, in face order.
   */
  method ClampFaces(w: nat, h: nat, f: int) returns (boxes: seq<Box>)
    ensures |boxes| == |Faces|
    ensures forall i :: 0 <= i < |Faces| ==> boxes[i] == Clamp(FaceBoxes(w, h, f)[i], w, h)
    ensures forall i :: 0 <= i < |Faces| ==> Inside(boxes[i], w, h)
  {
    var faces := FaceBoxes(w, h, f);
    boxes := [];
    for i := 0 to |faces|
      invariant |boxes| == i
      invariant forall j :: 0 <= j < i ==> boxes[j] == Clamp(faces[j], w, h)
    {
      var Box(left, top, right, bottom) := faces[i];
      left := Max(0, left);
      top := Max(0, top);
      right := Min(w, right);
      bottom := Min(h, bottom);
      boxes := boxes + [Box(left, top, right, bottom)];
    }
  }

  /** In the cross case each face is its f x f cross square. */
  lemma CrossFaces(w: nat, h: nat, f: int, i: int)
    requires UsesCross(w, h, f) && 0 <= i < |Faces|
    ensures FaceBoxes(w, h, f)[i] == CrossBox(f, Faces[i])
    ensures Width(FaceBoxes(w, h, f)[i]) == f && Height(FaceBoxes(w, h, f)[i]) == f
  {
  }

  /** In the cross case every box lies in the image, so clamping leaves it alone. */
  lemma CrossInside(w: nat, h: nat, f: int)
    requires UsesCross(w, h, f) && f >= 0
    ensures forall i :: 0 <= i < |Faces| ==>
      Inside(FaceBoxes(w, h, f)[i], w, h) && Clamp(FaceBoxes(w, h, f)[i], w, h) == FaceBoxes(w, h, f)[i]
  {
    forall i | 0 <= i < |Faces|
      ensures Inside(FaceBoxes(w, h, f)[i], w, h)
    {
      var b := CrossBox(f, Faces[i]);
      assert b.right <= f * 4 && b.bottom <= f * 3;
    }
  }

  /** The six cross squares do not overlap. */
  lemma CrossDisjoint(f: int)
    requires f >= 0
    ensures forall i, j :: 0 <= i < j < |Faces| ==> Disjoint(CrossBox(f, Faces[i]), CrossBox(f, Faces[j]))
  {
  }

  /** Outside the cross case face i is the fw x fw square at x = i * fw, fw = w // 6. */
  lemma FallbackFaces(w: nat, h: nat, f: int, i: int)
    requires !UsesCross(w, h, f) && 0 <= i < |Faces|
    ensures FaceBoxes(w, h, f)[i] == Box(i * (w / 6), 0, (i + 1) * (w / 6), w / 6)
  {
  }

  /**
   * Outside the cross case the squares are side by side from x = 0 and end
   * within the width, so clamping only ever lowers a bottom to the height.
   */
  lemma FallbackClamp(w: nat, h: nat, f: int)
    requires !UsesCross(w, h, f)
    ensures FaceBoxes(w, h, f)[0].left == 0
    ensures forall i :: 0 <= i < |Faces| - 1 ==> FaceBoxes(w, h, f)[i].right == FaceBoxes(w, h, f)[i + 1].left
    ensures forall i :: 0 <= i < |Faces| ==>
      Clamp(FaceBoxes(w, h, f)[i], w, h) == FaceBoxes(w, h, f)[i].(bottom := Min(h, w / 6))
  {
    var fw := w / 6;
    StripsWithin(fw, w);
  }

  /** Six strips of width w // 6 end at or before w. */
  lemma StripsWithin(fw: int, w: nat)
    requires fw == w / 6
    ensures 0 <= fw && forall i :: 0 <= i <= 6 ==> 0 <= fw * i <= w
  {
    forall i | 0 <= i <= 6
      ensures 0 <= fw * i <= w
    {
      assert fw * i <= fw * 6;
    }
  }

  /**
   * Every clamped box is upright, so each of the six crops succeeds, exactly
   * when the face size is at least 0.
   */
  lemma ClampedWellFormed(w: nat, h: nat, f: int)
    ensures (forall i :: 0 <= i < |Faces| ==> WellFormed(Clamp(FaceBoxes(w, h, f)[i], w, h))) <==> f >= 0
  {
    if f < 0 {
      NegativeFaceSizeInverted(w, h, f);
      assert !WellFormed(Clamp(FaceBoxes(w, h, f)[0], w, h));
    } else if UsesCross(w, h, f) {
      CrossInside(w, h, f);
    } else {
      FallbackClamp(w, h, f);
      StripsWithin(w / 6, w);
    }
  }

  /**
   * A negative face size passes the cross test for every image, and every
   * face's clamped box is inverted: its right edge lies left of 0.
   */
  lemma NegativeFaceSizeInverted(w: nat, h: nat, f: int)
    requires f < 0
    ensures UsesCross(w, h, f)
    ensures forall i :: 0 <= i < |Faces| ==> !WellFormed(Clamp(FaceBoxes(w, h, f)[i], w, h))
  {
    forall i | 0 <= i < |Faces|
      ensures !WellFormed(Clamp(FaceBoxes(w, h, f)[i], w, h))
    {
      var b := CrossBox(f, Faces[i]);
      assert FaceBoxes(w, h, f)[i] == b;
      assert b.right < 0 by {
        match Faces[i]
        case Right =>
        case Left =>
        case Top =>
        case Bottom =>
        case Front =>
        case Back =>
      }
    }
  }

  /**
   * PIL's resize to size x size raises (width and height must be positive)
   * unless the image already is size x size, in which case it copies it.
   */
  predicate ResizeFails(width: int, height: int, size: int) {
    size <= 0 && (width != size || height != size)
  }

  /** The size of a width x height image resized to size x size, or None when PIL raises. */
  function Resize(width: int, height: int, size: int): Option<(int, int)> {
    if ResizeFails(width, height, size) then None else Some((size, size))
  }

  /**
   * After cutting, a face is resized to f x f unless it already is f x f.
   * Returns the saved size, or None when the resize raises.
   */
  function SavedFaceSize(cropped: Box, f: int): Option<(int, int)> {
    if Width(cropped) != Height(cropped) then Resize(Width(cropped), Height(cropped), f)
    else if Width(cropped) != f then Resize(Width(cropped), Height(cropped), f)
    else Some((Width(cropped), Height(cropped)))
  }

  /** Resizing only happens when the crop is not already f x f. */
  predicate NeedsResize(cropped: Box, f: int) {
    Width(cropped) != Height(cropped) || Width(cropped) != f
  }

  /**
   * Every saved face is f x f whatever was cropped; saving fails exactly when
   * f is not positive and the crop is not already f x f.
   */
  lemma SavedFacesSquare(cropped: Box, f: int)
    ensures SavedFaceSize(cropped, f).Some? <==> f > 0 || !NeedsResize(cropped, f)
    ensures SavedFaceSize(cropped, f).Some? ==> SavedFaceSize(cropped, f).value == (f, f)
  {
  }

  /** In the cross case no face needs resizing. */
  lemma CrossNoResize(w: nat, h: nat, f: int)
    requires UsesCross(w, h, f) && f >= 0
    ensures forall i :: 0 <= i < |Faces| ==> !NeedsResize(Clamp(FaceBoxes(w, h, f)[i], w, h), f)
  {
    CrossInside(w, h, f);
  }

  /** Where `create_combined_preview` pastes each face on its 4f x 3f canvas. */
  function PreviewPosition(f: int, face: Face): (int, int) {
    match face
    case Right => (f * 2, f)
    case Left => (0, f)
    case Top => (f, 0)
    case Bottom => (f, f * 2)
    case Front => (f, f)
    case Back => (f * 3, f)
  }

  /**
   * The preview puts each face back where the cross layout cut it from, and
   * each f x f face fits on the 4f x 3f canvas.
   */
  lemma PreviewMatchesCross(f: int, face: Face)
    requires f >= 0
    ensures PreviewPosition(f, face) == (CrossBox(f, face).left, CrossBox(f, face).top)
    ensures var (x, y) := PreviewPosition(f, face);
      0 <= x && x + f <= f * 4 && 0 <= y && y + f <= f * 3
  {
  }

  /** The region `generate_cubemap_from_single_region` cuts: the given box, or the whole image. */
  function RegionBox(w: nat, h: nat, region: Option<Box>): Box {
    match region
    case None => Box(0, 0, w, h)
    case Some(b) => b
  }

  /** The size of a PIL crop of the box, or None when the box is inverted (PIL raises). */
  function CropSize(b: Box): Option<(nat, nat)> {
    if WellFormed(b) then Some((b.right - b.left, b.bottom - b.top)) else None
  }

  /** The six strips of a region: fw wide, full region height, side by side from x = 0. */
  function Strips(fw: int, regionHeight: int): (r: seq<Box>)
    ensures |r| == |Faces|
  {
    seq(|Faces|, i requires 0 <= i < |Faces| => StripBox(fw, i, regionHeight))
  }

  /**
   * The strips tile [0, 6 fw) without gaps or overlaps: the first starts at 0,
   * each ends where the next starts, each is fw wide and region-high, and with
   * fw = regionWidth // 6 all of them lie in the region.
   */
  lemma StripsTile(regionWidth: nat, regionHeight: nat)
    ensures var s := Strips(regionWidth / 6, regionHeight);
      && s[0].left == 0
      && (forall i :: 0 <= i < |s| - 1 ==> s[i].right == s[i + 1].left)
      && (forall i :: 0 <= i < |s| ==>
            Width(s[i]) == regionWidth / 6 && s[i].top == 0 && s[i].bottom == regionHeight &&
            Inside(s[i], regionWidth, regionHeight))
      && (forall i, j :: 0 <= i < j < |s| ==> s[i].right <= s[j].left)
  {
    var fw := regionWidth / 6;
    var s := Strips(fw, regionHeight);
    StripsWithin(fw, regionWidth);
    forall i, j | 0 <= i < j < |s|
      ensures s[i].right <= s[j].left
    {
      assert fw * (i + 1) <= fw * j;
    }
  }

  /**
   * The strip loop of `generate_cubemap_from_single_region`: face i's box
   * is (i * fw, 0, (i + 1) * fw, regionHeight).
   */
  method StripBoxes(fw: int, regionHeight: int) returns (boxes: seq<Box>)
    ensures boxes == Strips(fw, regionHeight)
  {
    boxes := [];
    for i := 0 to |Faces|
      invariant boxes == Strips(fw, regionHeight)[..i]
    {
      var faceLeft := i * fw;
      var faceRight := (i + 1) * fw;
      var faceTop := 0;
      var faceBottom := regionHeight;
      boxes := boxes + [Box(faceLeft, faceTop, faceRight, faceBottom)];
    }
  }

  /**
   * `generate_cubemap_from_single_region` without the image I/O: clamp the
   * region (the whole image by default), crop it, cut six strips and resize
   * each to min(regionWidth // 6, regionHeight) square.  Returns that face
   * size and the strip boxes (relative to the region), or None when the
   * clamped region is inverted and the crop fails, or when the resize fails.
   */
  method SingleRegionFaces(w: nat, h: nat, region: Option<Box>) returns (result: Option<(int, seq<Box>)>)
    ensures var c := Clamp(RegionBox(w, h, region), w, h);
      result.None? <==>
        !WellFormed(c) || ResizeFails(Width(c) / 6, Height(c), Min(Width(c) / 6, Height(c)))
    ensures result.Some? ==>
      var c := Clamp(RegionBox(w, h, region), w, h);
      result.value == (Min(Width(c) / 6, Height(c)), Strips(Width(c) / 6, Height(c)))
  {
    var Box(left, top, right, bottom) := RegionBox(w, h, region);
    left := Max(0, left);
    top := Max(0, top);
    right := Min(w, right);
    bottom := Min(h, bottom);
    var size := CropSize(Box(left, top, right, bottom));
    if size.None? {
      return None;
    }
    var (regionWidth, regionHeight) := size.value;
    var faceWidth := regionWidth / 6;
    var faceSize := Min(faceWidth, regionHeight);
    var boxes := StripBoxes(faceWidth, regionHeight);
    // every strip is faceWidth x regionHeight, so each resize fails alike
    if Resize(faceWidth, regionHeight, faceSize).None? {
      return None;
    }
    result := Some((faceSize, boxes));
  }

  /**
   * A region that crops fails at the resize exactly when it is narrower than
   * six pixels or has no height, but not both (a 0 x 0 strip is copied).
   */
  lemma SingleRegionResizeFails(c: Box)
    requires WellFormed(c)
    ensures ResizeFails(Width(c) / 6, Height(c), Min(Width(c) / 6, Height(c))) <==>
      ((Width(c) < 6) != (Height(c) == 0))
  {
  }

  /** A 5 x 5 image cut as a whole fails: its strips are 0 x 5 and cannot be resized to 0 x 0. */
  lemma NarrowImageFails()
    ensures var c := Clamp(RegionBox(5, 5, None), 5, 5);
      WellFormed(c) && ResizeFails(Width(c) / 6, Height(c), Min(Width(c) / 6, Height(c)))
  {
  }

  /** With no region given the whole image is cut: region width w, height h. */
  lemma WholeImageRegion(w: nat, h: nat)
    ensures Clamp(RegionBox(w, h, None), w, h) == Box(0, 0, w, h)
    ensures CropSize(Clamp(RegionBox(w, h, None), w, h)) == Some((w, h))
  {
  }

  /** q x q fits in the box. */
  predicate SquareFits(q: int, b: Box) {
    q <= Width(b) && q <= Height(b)
  }

  /**
   * The face size of a region is the largest square that fits in each of its
   * strips: it fits, and every square that fits is no larger.
   */
  lemma FaceFitsStrip(regionWidth: nat, regionHeight: nat, i: int)
    requires 0 <= i < |Faces|
    ensures var s := Strips(regionWidth / 6, regionHeight)[i];
      SquareFits(Min(regionWidth / 6, regionHeight), s) &&
      forall q :: SquareFits(q, s) ==> q <= Min(regionWidth / 6, regionHeight)
  {
  }
}
