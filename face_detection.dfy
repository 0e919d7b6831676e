/**
 * The skin-tone face locator of the pose service: one pass over the RGBA
 * bytes of the canvas counts skin-coloured pixels, sums their coordinates and
 * keeps their bounding box; more than 500 of them make a face, whose centre,
 * size and confidence are derived from those statistics and clamped.
 */
module FaceDetection {
  import opened Wrappers
  import opened RealMath

  type Byte = x: int | 0 <= x < 256

  /** The drawing surface a frame is copied onto; only its size matters here. */
  datatype Canvas = Canvas(width: nat, height: nat)

  /** A located face: centre and size as fractions of the canvas, and a confidence. */
  datatype FaceData = FaceData(x: real, y: real, size: real, confidence: real)

  /** A face needs strictly more skin pixels than this. */
  const MinFacePixels: nat := 500
  /** Skin pixel count at which the confidence reaches 1. */
  const FullConfidencePixels: real := 2000.0

  function PixelCount(c: Canvas): nat
  {
    c.width * c.height
  }

  /** `data` is the image data of canvas c: four bytes (R, G, B, A) per pixel, row by row. */
  predicate IsImageData(c: Canvas, data: seq<Byte>)
  {
    |data| == 4 * PixelCount(c)
  }

  lemma PixelImpliesNonEmptyCanvas(c: Canvas, p: nat)
    requires p < PixelCount(c)
    ensures c.width > 0 && c.height > 0
  {
  }

  /**
   * Pixel bytes and coordinates are integers, so the scan uses integer
   * versions of `Math.abs`, `Math.min` and `Math.max` rather than the real
   * ones of RealMath; this keeps its statistics in `nat` without conversions.
   */
  function IntAbs(x: int): int
  {
    if x < 0 then -x else x
  }

  /**
   * The fixed colour test for a skin-like pixel. Several of its conditions
   * are implied by the others: it amounts to red in (100, 220), green in
   * (40, red - 15) and blue in (20, red).
   */
  predicate IsSkinTone(r: int, g: int, b: int): (skin: bool)
    ensures skin <==> 100 < r < 220 && 40 < g < r - 15 && 20 < b < r
  {
    r > 95 && g > 40 && b > 20 &&
    r > g && r > b &&
    IntAbs(r - g) > 15 &&
    r > 100 && r < 220
  }

  predicate IsSkinPixel(c: Canvas, data: seq<Byte>, p: nat)
    requires IsImageData(c, data) && p < PixelCount(c)
  {
    IsSkinTone(data[4 * p], data[4 * p + 1], data[4 * p + 2])
  }

  /** Column of pixel p: its index modulo the width. */
  function Column(c: Canvas, p: nat): nat
    requires c.width > 0
  {
    p % c.width
  }

  /** Row of pixel p: its index divided by the width, rounded down. */
  function Row(c: Canvas, p: nat): nat
    requires c.width > 0
  {
    p / c.width
  }

  /** The skin pixels among the first n pixels. */
  ghost function SkinSet(c: Canvas, data: seq<Byte>, n: nat): set<nat>
    requires IsImageData(c, data) && n <= PixelCount(c)
  {
    set p: nat | p < n && IsSkinPixel(c, data, p)
  }

  /** What the scan has accumulated so far. */
  datatype ScanStats = ScanStats(
    skinPixels: nat,
    totalX: nat, totalY: nat,
    minX: nat, minY: nat,
    maxX: nat, maxY: nat)

  /** Before any pixel: no skin, the box's minima at the canvas size and its maxima at 0. */
  function InitialStats(c: Canvas): (s: ScanStats)
    ensures s.skinPixels == 0 && s.totalX == 0 && s.totalY == 0
    ensures s.minX == c.width && s.minY == c.height && s.maxX == 0 && s.maxY == 0
    ensures forall x: nat :: x < c.width ==> NatMin(s.minX, x) == x && NatMax(s.maxX, x) == x
    ensures forall y: nat :: y < c.height ==> NatMin(s.minY, y) == y && NatMax(s.maxY, y) == y
  {
    ScanStats(0, 0, 0, c.width, c.height, 0, 0)
  }

  /** `Math.min` and `Math.max` on pixel coordinates, kept in `nat` like `IntAbs` above. */
  function NatMin(a: nat, b: nat): nat { if a <= b then a else b }
  function NatMax(a: nat, b: nat): nat { if a >= b then a else b }

  /** One step of the scan: pixel p is folded into the statistics when it is skin-coloured. */
  function Visit(c: Canvas, data: seq<Byte>, s: ScanStats, p: nat): (t: ScanStats)
    requires IsImageData(c, data) && p < PixelCount(c)
    ensures !IsSkinPixel(c, data, p) ==> t == s
    ensures IsSkinPixel(c, data, p) ==>
      c.width > 0 && t.skinPixels == s.skinPixels + 1 &&
      t.minX <= s.minX && t.minY <= s.minY && s.maxX <= t.maxX && s.maxY <= t.maxY &&
      t.minX <= Column(c, p) <= t.maxX && t.minY <= Row(c, p) <= t.maxY &&
      (t.minX == s.minX || t.minX == Column(c, p)) && (t.maxX == s.maxX || t.maxX == Column(c, p)) &&
      (t.minY == s.minY || t.minY == Row(c, p)) && (t.maxY == s.maxY || t.maxY == Row(c, p))
  {
    PixelImpliesNonEmptyCanvas(c, p);
    if IsSkinPixel(c, data, p) then
      var x, y := Column(c, p), Row(c, p);
      ScanStats(s.skinPixels + 1, s.totalX + x, s.totalY + y,
                NatMin(s.minX, x), NatMin(s.minY, y), NatMax(s.maxX, x), NatMax(s.maxY, y))
    else s
  }

  /** The statistics after the first n pixels, in index order. */
  function Scan(c: Canvas, data: seq<Byte>, n: nat): (s: ScanStats)
    requires IsImageData(c, data) && n <= PixelCount(c)
    ensures s.skinPixels <= n
  {
    if n == 0 then InitialStats(c) else Visit(c, data, Scan(c, data, n - 1), n - 1)
  }

  /** The count kept by the scan is the number of skin pixels. */
  lemma {:induction false} SkinCountIsCardinality(c: Canvas, data: seq<Byte>, n: nat)
    requires IsImageData(c, data) && n <= PixelCount(c)
    ensures Scan(c, data, n).skinPixels == |SkinSet(c, data, n)|
  {
    if n > 0 {
      SkinCountIsCardinality(c, data, n - 1);
      SkinSetStep(c, data, n - 1);
    }
  }

  /** Pixel p joins the skin set exactly when it is skin-coloured. */
  lemma SkinSetStep(c: Canvas, data: seq<Byte>, p: nat)
    requires IsImageData(c, data) && p < PixelCount(c)
    ensures |SkinSet(c, data, p + 1)| == |SkinSet(c, data, p)| + (if IsSkinPixel(c, data, p) then 1 else 0)
  {
    if IsSkinPixel(c, data, p) {
      assert SkinSet(c, data, p + 1) == SkinSet(c, data, p) + {p};
    } else {
      assert SkinSet(c, data, p + 1) == SkinSet(c, data, p);
    }
  }

  /**
   * The bounding box holds every skin pixel seen so far and is the smallest
   * such box: each of its four edges is the column or row of some skin
   * pixel, so once one has been seen it is non-empty and inside the canvas.
   * Before the first skin pixel the statistics are the initial ones.
   */
  lemma {:induction false} BoundingBoxCoversSkin(c: Canvas, data: seq<Byte>, n: nat)
    requires IsImageData(c, data) && n <= PixelCount(c)
    ensures var s := Scan(c, data, n);
      forall p: nat :: p < n && IsSkinPixel(c, data, p) ==>
        c.width > 0 && s.minX <= Column(c, p) <= s.maxX && s.minY <= Row(c, p) <= s.maxY
    ensures var s := Scan(c, data, n);
      s.skinPixels > 0 ==> s.minX <= s.maxX < c.width && s.minY <= s.maxY < c.height
    ensures var s := Scan(c, data, n);
      s.skinPixels > 0 ==>
        c.width > 0 &&
        (exists p: nat :: p < n && IsSkinPixel(c, data, p) && Column(c, p) == s.minX) &&
        (exists p: nat :: p < n && IsSkinPixel(c, data, p) && Column(c, p) == s.maxX) &&
        (exists p: nat :: p < n && IsSkinPixel(c, data, p) && Row(c, p) == s.minY) &&
        (exists p: nat :: p < n && IsSkinPixel(c, data, p) && Row(c, p) == s.maxY)
    ensures var s := Scan(c, data, n);
      s.skinPixels == 0 ==> s == InitialStats(c)
  {
    if n > 0 {
      BoundingBoxCoversSkin(c, data, n - 1);
      RowInCanvas(c, n - 1);
      var s := Scan(c, data, n - 1);
      if IsSkinPixel(c, data, n - 1) {
        var x := Column(c, n - 1);
        assert x < c.width;
        if s.skinPixels == 0 {
          assert Scan(c, data, n) == Visit(c, data, InitialStats(c), n - 1);
        } else {
          assert Scan(c, data, n) == Visit(c, data, s, n - 1);
        }
      } else {
        assert Scan(c, data, n) == s;
      }
    }
  }

  /** Every pixel of the canvas lies in one of its rows. */
  lemma RowInCanvas(c: Canvas, p: nat)
    requires p < PixelCount(c)
    ensures c.width > 0 && Row(c, p) < c.height
  {
    PixelImpliesNonEmptyCanvas(c, p);
    var q := p / c.width;
    assert c.width * q <= p < c.width * c.height;
    if c.height <= q {
      MulMonotone(c.width, c.height, q);
    }
  }

  /** Coordinate sums lie between count times the box's minimum and count times its maximum. */
  lemma {:induction false} SumsWithinBox(c: Canvas, data: seq<Byte>, n: nat)
    requires IsImageData(c, data) && n <= PixelCount(c)
    ensures var s := Scan(c, data, n);
      s.skinPixels * s.minX <= s.totalX <= s.skinPixels * s.maxX &&
      s.skinPixels * s.minY <= s.totalY <= s.skinPixels * s.maxY
  {
    if n > 0 {
      SumsWithinBox(c, data, n - 1);
      var s := Scan(c, data, n - 1);
      if IsSkinPixel(c, data, n - 1) {
        PixelImpliesNonEmptyCanvas(c, n - 1);
        var x, y := Column(c, n - 1), Row(c, n - 1);
        SumStepStaysWithin(s.skinPixels, s.minX, s.totalX, s.maxX, x);
        SumStepStaysWithin(s.skinPixels, s.minY, s.totalY, s.maxY, y);
      }
    }
  }

  /** Adding one coordinate to a sum of k keeps it between the widened bounds times k + 1. */
  lemma SumStepStaysWithin(k: nat, lo: nat, total: nat, hi: nat, v: nat)
    requires k * lo <= total <= k * hi
    ensures (k + 1) * NatMin(lo, v) <= total + v <= (k + 1) * NatMax(hi, v)
  {
    var lo', hi' := NatMin(lo, v), NatMax(hi, v);
    MulMonotone(k, lo', lo);
    MulMonotone(k, hi, hi');
    assert (k + 1) * lo' == k * lo' + lo';
    assert (k + 1) * hi' == k * hi' + hi';
  }

  lemma MulMonotone(k: nat, a: nat, b: nat)
    requires a <= b
    ensures k * a <= k * b
  {
  }

  /** The outcome of the scan: a clamped face when more than 500 pixels were skin, else none. */
  function FaceFromStats(c: Canvas, s: ScanStats, sqrt: real -> real): (face: Option<FaceData>)
    requires s.skinPixels <= PixelCount(c)
    ensures face.None? <==> s.skinPixels <= MinFacePixels
    ensures face.Some? ==>
      0.1 <= face.value.x <= 0.9 && 0.1 <= face.value.y <= 0.9 &&
      0.1 <= face.value.size <= 0.5 &&
      face.value.confidence == Min(1.0, s.skinPixels as real / FullConfidencePixels) &&
      0.0 < face.value.confidence <= 1.0
  {
    if s.skinPixels > MinFacePixels then
      PixelImpliesNonEmptyCanvas(c, 0);
      var count := s.skinPixels as real;
      var w, h := c.width as real, c.height as real;
      var centerX := s.totalX as real / count / w;
      var centerY := s.totalY as real / count / h;
      var width := (s.maxX - s.minX) as real / w;
      var height := (s.maxY - s.minY) as real / h;
      Some(FaceData(Clamp(0.1, 0.9, centerX), Clamp(0.1, 0.9, centerY),
                    Clamp(0.1, 0.5, sqrt(width * height)), Min(1.0, count / FullConfidencePixels)))
    else None
  }

  /** What the detector reports for a whole canvas. */
  function DetectedFace(c: Canvas, data: seq<Byte>, sqrt: real -> real): Option<FaceData>
    requires IsImageData(c, data)
  {
    FaceFromStats(c, Scan(c, data, PixelCount(c)), sqrt)
  }

  /**
   * Before clamping, the centre of a detected face lies inside the bounding
   * box of the skin pixels, measured in fractions of the canvas.
   */
  lemma CentreInsideBox(c: Canvas, data: seq<Byte>)
    requires IsImageData(c, data)
    ensures var s := Scan(c, data, PixelCount(c));
      s.skinPixels > 0 ==>
        c.width > 0 && c.height > 0 &&
        s.minX as real / c.width as real <= s.totalX as real / s.skinPixels as real / c.width as real <= s.maxX as real / c.width as real &&
        s.minY as real / c.height as real <= s.totalY as real / s.skinPixels as real / c.height as real <= s.maxY as real / c.height as real
  {
    var s := Scan(c, data, PixelCount(c));
    if s.skinPixels > 0 {
      SumsWithinBox(c, data, PixelCount(c));
      PixelImpliesNonEmptyCanvas(c, 0);
      MeanBetween(s.skinPixels, s.minX, s.totalX, s.maxX, c.width);
      MeanBetween(s.skinPixels, s.minY, s.totalY, s.maxY, c.height);
    }
  }

  lemma MeanBetween(k: nat, lo: nat, total: nat, hi: nat, d: nat)
    requires k > 0 && d > 0
    requires k * lo <= total <= k * hi
    ensures lo as real / d as real <= total as real / k as real / d as real <= hi as real / d as real
  {
    var mean := total as real / k as real;
    assert (k * lo) as real == k as real * lo as real;
    assert (k * hi) as real == k as real * hi as real;
    LowerBoundOfQuotient(lo as real, total as real, k as real);
    UpperBoundOfQuotient(hi as real, total as real, k as real);
    QuotientMonotone(lo as real, mean, d as real);
    QuotientMonotone(mean, hi as real, d as real);
  }

  lemma LowerBoundOfQuotient(lo: real, total: real, k: real)
    requires k > 0.0 && k * lo <= total
    ensures lo <= total / k
  {
    assert (total / k) * k == total;
  }

  lemma UpperBoundOfQuotient(hi: real, total: real, k: real)
    requires k > 0.0 && total <= k * hi
    ensures total / k <= hi
  {
    assert (total / k) * k == total;
  }

  lemma QuotientMonotone(a: real, b: real, d: real)
    requires d > 0.0 && a <= b
    ensures a / d <= b / d
  {
  }

  /**
   * `detectFaceInCanvas` once a canvas is present: a pass over the bytes in
   * steps of four, then the threshold and the clamped face.
   */
  method DetectFace(c: Canvas, data: seq<Byte>, sqrt: real -> real) returns (face: Option<FaceData>)
    requires IsImageData(c, data)
    ensures face == DetectedFace(c, data, sqrt)
    ensures face.None? <==> |SkinSet(c, data, PixelCount(c))| <= MinFacePixels
  {
    var skinPixels: nat, totalX: nat, totalY: nat := 0, 0, 0;
    var minX: nat, minY: nat, maxX: nat, maxY: nat := c.width, c.height, 0, 0;
    var i := 0;
    ghost var pixel: nat := 0;
    while i < |data|
      invariant i == 4 * pixel && pixel <= PixelCount(c)
      invariant ScanStats(skinPixels, totalX, totalY, minX, minY, maxX, maxY) == Scan(c, data, pixel)
    {
      var r, g, b := data[i], data[i + 1], data[i + 2];
      assert IsSkinTone(r, g, b) == IsSkinPixel(c, data, pixel);
      assert Scan(c, data, pixel + 1) == Visit(c, data, Scan(c, data, pixel), pixel);
      if IsSkinTone(r, g, b) {
        var pixelIndex := i / 4;
        assert pixelIndex == pixel;
        PixelImpliesNonEmptyCanvas(c, pixelIndex);
        var x := pixelIndex % c.width;
        var y := pixelIndex / c.width;
        totalX := totalX + x;
        totalY := totalY + y;
        skinPixels := skinPixels + 1;
        minX := NatMin(minX, x);
        minY := NatMin(minY, y);
        maxX := NatMax(maxX, x);
        maxY := NatMax(maxY, y);
      }
      i := i + 4;
      pixel := pixel + 1;
    }
    assert pixel == PixelCount(c);
    SkinCountIsCardinality(c, data, PixelCount(c));
    face := FaceFromStats(c, ScanStats(skinPixels, totalX, totalY, minX, minY, maxX, maxY), sqrt);
  }
}
