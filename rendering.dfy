/**
 * Image helpers: the encoder choice of `image2PictureData`/`imageHasAlpha`,
 * and the transform table of `UIImage.fixedOrientation`, with quarter turns
 * and integer sizes in place of CGFloat angles.
 */
module Rendering {
  import opened PhotoStore

  /** CGImageAlphaInfo */
  datatype AlphaInfo =
    | NoAlpha | PremultipliedLast | PremultipliedFirst | Last | First
    | NoneSkipLast | NoneSkipFirst | AlphaOnly

  /**
   * `imageHasAlpha`; `alpha` is `image.cgImage?.alphaInfo` (`None` when the
   * image has no CGImage). Only the four kinds with a colour-plus-alpha
   * layout count; `alphaOnly` does not.
   */
  function ImageHasAlpha(alpha: Option<AlphaInfo>): (r: bool)
    ensures r <==> alpha.Some? && alpha.value in {First, Last, PremultipliedFirst, PremultipliedLast}
    ensures alpha == Some(AlphaOnly) || alpha == None ==> !r
  {
    alpha == Some(First) || alpha == Some(Last) || alpha == Some(PremultipliedFirst) || alpha == Some(PremultipliedLast)
  }

  datatype PictureData = PictureData(data: seq<bv8>, mimeType: string)

  /**
   * `image2PictureData`; `png` and `jpeg` are what `UIImagePNGRepresentation`
   * and `UIImageJPEGRepresentation` (at the requested quality) would return.
   * Only the encoder the alpha test picks is consulted; if it returns nil,
   * so does this, even when the other one would have produced data.
   */
  function Image2PictureData(alpha: Option<AlphaInfo>, png: Option<seq<bv8>>, jpeg: Option<seq<bv8>>): (r: Option<PictureData>)
    ensures ImageHasAlpha(alpha) ==> r == if png.Some? then Some(PictureData(png.value, "image/png")) else None
    ensures !ImageHasAlpha(alpha) ==> r == if jpeg.Some? then Some(PictureData(jpeg.value, "image/jpeg")) else None
    ensures r.Some? ==> r.value.mimeType in {"image/png", "image/jpeg"}
  {
    if ImageHasAlpha(alpha) then
      if png.Some? then Some(PictureData(png.value, "image/png")) else None
    else
      if jpeg.Some? then Some(PictureData(jpeg.value, "image/jpeg")) else None
  }

  /** The transparency of an alpha image survives: it is never sent to the JPEG encoder. */
  lemma AlphaKeptAsPng(alpha: Option<AlphaInfo>, png: Option<seq<bv8>>, jpeg: Option<seq<bv8>>)
    requires Image2PictureData(alpha, png, jpeg).Some?
    ensures Image2PictureData(alpha, png, jpeg).value.mimeType == "image/png" <==> ImageHasAlpha(alpha)
    ensures Image2PictureData(alpha, png, jpeg).value.data == if ImageHasAlpha(alpha) then png.value else jpeg.value
  {
  }

  /** UIImage.Orientation */
  datatype Orientation =
    | Up | Down | Left | Right
    | UpMirrored | DownMirrored | LeftMirrored | RightMirrored

  /** The orientation without its mirror. */
  function Unmirrored(o: Orientation): Orientation {
    match o
    case UpMirrored => Up
    case DownMirrored => Down
    case LeftMirrored => Left
    case RightMirrored => Right
    case _ => o
  }

  predicate Mirrored(o: Orientation) {
    o.UpMirrored? || o.DownMirrored? || o.LeftMirrored? || o.RightMirrored?
  }

  predicate QuarterTurned(o: Orientation) {
    Unmirrored(o) == Left || Unmirrored(o) == Right
  }

  /**
   * A CGAffineTransform: the point (x, y) goes to
   * (a*x + c*y + tx, b*x + d*y + ty).
   */
  datatype Affine = Affine(a: int, b: int, c: int, d: int, tx: int, ty: int)

  datatype Point = Point(x: int, y: int)

  /**
   * `k * x`, with the coefficients every transform here has (-1, 0 and 1)
   * spelled out so that no proof needs non-linear arithmetic.
   */
  function Times(k: int, x: int): int {
    if k == 0 then 0 else if k == 1 then x else if k == -1 then -x else k * x
  }

  function Apply(t: Affine, p: Point): Point {
    Point(Times(t.a, p.x) + Times(t.c, p.y) + t.tx, Times(t.b, p.x) + Times(t.d, p.y) + t.ty)
  }

  function Determinant(t: Affine): int {
    Times(t.a, t.d) - Times(t.b, t.c)
  }

  const Identity: Affine := Affine(1, 0, 0, 1, 0, 0)

  /** `t1.concatenating(t2)`: first `t1`, then `t2`. */
  function Concat(t1: Affine, t2: Affine): Affine {
    Affine(Times(t1.a, t2.a) + Times(t1.b, t2.c), Times(t1.a, t2.b) + Times(t1.b, t2.d),
           Times(t1.c, t2.a) + Times(t1.d, t2.c), Times(t1.c, t2.b) + Times(t1.d, t2.d),
           Times(t2.a, t1.tx) + Times(t2.c, t1.ty) + t2.tx, Times(t2.b, t1.tx) + Times(t2.d, t1.ty) + t2.ty)
  }

  /** `t.translatedBy(x:y:)`: the translation acts before `t`. */
  function TranslatedBy(t: Affine, dx: int, dy: int): Affine {
    Concat(Affine(1, 0, 0, 1, dx, dy), t)
  }

  /** `t.rotated(by:)` for `quarterTurns` times π/2, counter-clockwise. */
  function RotatedBy(t: Affine, quarterTurns: int): Affine
    requires -1 <= quarterTurns <= 2
  {
    var cos := if quarterTurns == 0 then 1 else if quarterTurns == 2 then -1 else 0;
    var sin := if quarterTurns == 1 then 1 else if quarterTurns == -1 then -1 else 0;
    Concat(Affine(cos, sin, -sin, cos, 0, 0), t)
  }

  /** `t.scaledBy(x:y:)`: the scaling acts before `t`. */
  function ScaledBy(t: Affine, sx: int, sy: int): Affine {
    Concat(Affine(sx, 0, 0, sy, 0, 0), t)
  }

  /** The first case table of `fixedOrientation`: turn the image upright. */
  function Upright(o: Orientation, w: int, h: int): Affine {
    match Unmirrored(o)
    case Down => RotatedBy(TranslatedBy(Identity, w, h), 2)
    case Left => RotatedBy(TranslatedBy(Identity, w, 0), 1)
    case Right => RotatedBy(TranslatedBy(Identity, 0, h), -1)
    case _ => Identity
  }

  /**
   * The transform `fixedOrientation` concatenates, as written: the second
   * case table computes the mirror adjustments and discards them, so only
   * the upright turn remains.
   */
  function AsWrittenTransform(o: Orientation, w: int, h: int): (r: Affine)
    ensures r == Upright(Unmirrored(o), w, h)
  {
    Upright(o, w, h)
  }

  /** The transform with the mirror adjustments kept: flip horizontally inside the drawn rectangle first. */
  function CorrectedTransform(o: Orientation, w: int, h: int): Affine {
    var t := Upright(o, w, h);
    if o == UpMirrored || o == DownMirrored then ScaledBy(TranslatedBy(t, w, 0), -1, 1)
    else if o == LeftMirrored || o == RightMirrored then ScaledBy(TranslatedBy(t, h, 0), -1, 1)
    else t
  }

  /** The rectangle the CGImage is drawn in: width and height swap for quarter turns. */
  function DrawSize(o: Orientation, w: int, h: int): (r: Point)
    ensures QuarterTurned(o) ==> r == Point(h, w)
    ensures !QuarterTurned(o) ==> r == Point(w, h)
  {
    if QuarterTurned(o) then Point(h, w) else Point(w, h)
  }

  /**
   * Where the pixel at `p` of the drawn rectangle belongs on the upright
   * `w` by `h` canvas: for the mirrored orientations a horizontal flip of the
   * drawn rectangle, followed in every case by the quarter or half turn of
   * the unmirrored orientation.
   */
  function Reference(o: Orientation, w: int, h: int, p: Point): Point {
    match o
    case Up => p
    case UpMirrored => Point(w - p.x, p.y)
    case Down => Point(w - p.x, h - p.y)
    case DownMirrored => Point(p.x, h - p.y)
    case Left => Point(w - p.y, p.x)
    case LeftMirrored => Point(w - p.y, h - p.x)
    case Right => Point(p.y, h - p.x)
    case RightMirrored => Point(p.y, p.x)
  }

  /** The corrected transforms in closed form, one matrix per orientation. */
  function Table(o: Orientation, w: int, h: int): Affine {
    match o
    case Up => Identity
    case UpMirrored => Affine(-1, 0, 0, 1, w, 0)
    case Down => Affine(-1, 0, 0, -1, w, h)
    case DownMirrored => Affine(1, 0, 0, -1, 0, h)
    case Left => Affine(0, 1, -1, 0, w, 0)
    case LeftMirrored => Affine(0, -1, -1, 0, w, h)
    case Right => Affine(0, -1, 1, 0, 0, h)
    case RightMirrored => Affine(0, 1, 1, 0, 0, 0)
  }

  /** A turn after a translation of the identity: the turn's matrix with the translation's offset. */
  lemma TurnedTranslation(dx: int, dy: int, quarterTurns: int)
    requires -1 <= quarterTurns <= 2
    ensures var cos := if quarterTurns == 0 then 1 else if quarterTurns == 2 then -1 else 0;
      var sin := if quarterTurns == 1 then 1 else if quarterTurns == -1 then -1 else 0;
      RotatedBy(TranslatedBy(Identity, dx, dy), quarterTurns) == Affine(cos, sin, -sin, cos, dx, dy)
  {
    assert TranslatedBy(Identity, dx, dy) == Affine(1, 0, 0, 1, dx, dy);
  }

  /** The mirror adjustment: translate by `dx`, then flip horizontally. */
  lemma FlipForm(t: Affine, dx: int)
    ensures ScaledBy(TranslatedBy(t, dx, 0), -1, 1) ==
      Affine(-t.a, -t.b, t.c, t.d, Times(t.a, dx) + t.tx, Times(t.b, dx) + t.ty)
  {
    var m := TranslatedBy(t, dx, 0);
    assert m == Affine(t.a, t.b, t.c, t.d, Times(t.a, dx) + t.tx, Times(t.b, dx) + t.ty);
  }

  /** The upright turn of an unmirrored orientation is its closed form. */
  lemma UprightTable(o: Orientation, w: int, h: int)
    requires !Mirrored(o)
    ensures Upright(o, w, h) == Table(o, w, h)
  {
    if o == Down {
      TurnedTranslation(w, h, 2);
    } else if o == Left {
      TurnedTranslation(w, 0, 1);
    } else if o == Right {
      TurnedTranslation(0, h, -1);
    }
  }

  /** The source's construction of the corrected transform yields the closed form. */
  lemma CorrectedTable(o: Orientation, w: int, h: int)
    ensures CorrectedTransform(o, w, h) == Table(o, w, h)
  {
    var u := Unmirrored(o);
    assert Upright(o, w, h) == Upright(u, w, h);
    UprightTable(u, w, h);
    if o == UpMirrored || o == DownMirrored {
      FlipForm(Table(u, w, h), w);
    } else if o == LeftMirrored || o == RightMirrored {
      FlipForm(Table(u, w, h), h);
    }
  }

  /** The corrected transform puts every pixel where the orientation says it belongs. */
  lemma CorrectedMatchesReference(o: Orientation, w: int, h: int, p: Point)
    ensures Apply(CorrectedTransform(o, w, h), p) == Reference(o, w, h, p)
  {
    CorrectedTable(o, w, h);
  }

  /** As written, each orientation gets the corrected transform of its unmirrored form. */
  lemma AsWrittenIsUnmirrored(o: Orientation, w: int, h: int)
    ensures AsWrittenTransform(o, w, h) == CorrectedTransform(Unmirrored(o), w, h)
  {
    var u := Unmirrored(o);
    assert Unmirrored(u) == u && !Mirrored(u);
    assert CorrectedTransform(u, w, h) == Upright(u, w, h);
  }

  /** The transform as written does so for the four unmirrored orientations. */
  lemma AsWrittenMatchesUnmirrored(o: Orientation, w: int, h: int, p: Point)
    requires !Mirrored(o)
    ensures Apply(AsWrittenTransform(o, w, h), p) == Reference(o, w, h, p)
  {
    AsWrittenIsUnmirrored(o, w, h);
    CorrectedMatchesReference(o, w, h, p);
  }

  /** Under a mirrored orientation the origin pixel belongs elsewhere than under its unmirrored form. */
  lemma MirrorMovesOrigin(o: Orientation, w: int, h: int)
    requires Mirrored(o) && w > 0 && h > 0
    ensures Reference(Unmirrored(o), w, h, Point(0, 0)) != Reference(o, w, h, Point(0, 0))
  {
  }

  /**
   * As written, every mirrored orientation of a non-empty image misplaces
   * the pixel at the origin: it lands where the unmirrored orientation puts
   * it, not where the mirrored one does.
   */
  lemma AsWrittenMisplacesMirrored(o: Orientation, w: int, h: int)
    requires Mirrored(o) && w > 0 && h > 0
    ensures Apply(AsWrittenTransform(o, w, h), Point(0, 0)) == Reference(Unmirrored(o), w, h, Point(0, 0))
    ensures Apply(AsWrittenTransform(o, w, h), Point(0, 0)) != Reference(o, w, h, Point(0, 0))
  {
    AsWrittenIsUnmirrored(o, w, h);
    CorrectedMatchesReference(Unmirrored(o), w, h, Point(0, 0));
    MirrorMovesOrigin(o, w, h);
  }

  /**
   * An `upMirrored` image 2 points wide is redrawn unchanged: its left edge
   * stays on the left, where the corrected transform moves it to the right.
   */
  lemma UpMirroredCounterexample()
    ensures AsWrittenTransform(UpMirrored, 2, 1) == Identity
    ensures Apply(CorrectedTransform(UpMirrored, 2, 1), Point(0, 0)) == Point(2, 0)
  {
    CorrectedMatchesReference(UpMirrored, 2, 1, Point(0, 0));
  }

  /** Corrected mirrored orientations reverse handedness, the others keep it. */
  lemma CorrectedHandedness(o: Orientation, w: int, h: int)
    ensures Determinant(CorrectedTransform(o, w, h)) == if Mirrored(o) then -1 else 1
  {
    CorrectedTable(o, w, h);
    if Mirrored(o) {
      MirroredTableReverses(o, w, h);
    } else {
      UnmirroredTableKeeps(o, w, h);
    }
  }

  /** As written, no orientation reverses handedness. */
  lemma AsWrittenHandedness(o: Orientation, w: int, h: int)
    ensures Determinant(AsWrittenTransform(o, w, h)) == 1
  {
    var u := Unmirrored(o);
    assert !Mirrored(u);
    AsWrittenIsUnmirrored(o, w, h);
    CorrectedHandedness(u, w, h);
  }

  lemma MirroredTableReverses(o: Orientation, w: int, h: int)
    requires Mirrored(o)
    ensures Determinant(Table(o, w, h)) == -1
  {
  }

  lemma UnmirroredTableKeeps(o: Orientation, w: int, h: int)
    requires !Mirrored(o)
    ensures Determinant(Table(o, w, h)) == 1
  {
  }

  /** The four corners of a rectangle at the origin. */
  function Corners(size: Point): set<Point> {
    {Point(0, 0), Point(size.x, 0), Point(0, size.y), Point(size.x, size.y)}
  }

  /** Where a transform sends the four corners of a rectangle at the origin. */
  function CornerImage(t: Affine, size: Point): set<Point> {
    {Apply(t, Point(0, 0)), Apply(t, Point(size.x, 0)), Apply(t, Point(0, size.y)), Apply(t, Point(size.x, size.y))}
  }

  /** The corrected transform puts the drawn rectangle exactly onto the `w` by `h` canvas. */
  lemma CorrectedFillsCanvas(o: Orientation, w: int, h: int)
    ensures CornerImage(CorrectedTransform(o, w, h), DrawSize(o, w, h)) == Corners(Point(w, h))
  {
    var d := DrawSize(o, w, h);
    CorrectedMatchesReference(o, w, h, Point(0, 0));
    CorrectedMatchesReference(o, w, h, Point(d.x, 0));
    CorrectedMatchesReference(o, w, h, Point(0, d.y));
    CorrectedMatchesReference(o, w, h, Point(d.x, d.y));
  }

  /** What `fixedOrientation` returns: the image itself for `.up`, else a redraw with a transform. */
  datatype Redraw = Unchanged | Redrawn(transform: Affine, drawSize: Point, canvas: Point)

  /** `fixedOrientation`, using the corrected transform. */
  function FixedOrientation(o: Orientation, w: int, h: int): (r: Redraw)
    ensures r.Unchanged? <==> o == Up
    ensures r.Redrawn? ==> r.canvas == Point(w, h) && r.drawSize == DrawSize(o, w, h)
    ensures r.Redrawn? ==> CornerImage(r.transform, r.drawSize) == Corners(r.canvas)
    ensures r.Redrawn? ==> forall p :: Apply(r.transform, p) == Reference(o, w, h, p)
  {
    if o == Up then Unchanged
    else
      CorrectedFillsCanvas(o, w, h);
      assert forall p :: Apply(CorrectedTransform(o, w, h), p) == Reference(o, w, h, p) by {
        forall p { CorrectedMatchesReference(o, w, h, p); }
      }
      Redrawn(CorrectedTransform(o, w, h), DrawSize(o, w, h), Point(w, h))
  }
}
