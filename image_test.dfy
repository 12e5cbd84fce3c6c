/**
 * The fitness pipeline of `TestImage`: a flat chromosome is cut into one chunk
 * per polygon, each chunk is decoded into vertices and an RGBA colour, the
 * polygons are painted, and the painting is scored against the reference
 * image with the mean squared error or with one minus the structural
 * similarity. Painting and the similarity index belong to foreign libraries
 * and are kept as function values of the test image.
 */
module ImageTest {
  import opened Genes

  datatype Point = Point(x: int, y: int)

  /** One decoded polygon: its vertices in drawing order and its colour. */
  datatype Polygon = Polygon(vertices: seq<Point>, red: int, green: int, blue: int, alpha: int)

  /** A pixel in the BGR channel order the comparison converts both images to. */
  datatype Pixel = Pixel(blue: int, green: int, red: int)

  /** A raster image, row by row. */
  type Image = seq<Pixel>

  datatype Error =
    | IndexError     // a polygon chunk shorter than 2 * polySize + 4
    | ShapeMismatch  // the painted image and the reference differ in size

  datatype Result<T> = Ok(value: T) | Err(error: Error)

  /**
   * The reference image with its dimensions and the number of vertices per
   * polygon. `paint` draws the polygons in order onto a fresh black canvas of
   * the reference's size; `similarity` is the structural similarity index of
   * two images.
   */
  datatype TestImage = TestImage(
    reference: Image,
    polySize: nat,
    width: nat,
    height: nat,
    paint: seq<Polygon> -> Image,
    similarity: (Image, Image) -> real)
  {
    /** The reference holds width * height pixels, at least one. */
    predicate Valid() {
      |reference| == width * height && 0 < |reference|
    }

    function NumPixels(): nat {
      width * height
    }
  }

  /** Python's `int()` on a float: the integer part, truncated toward zero. */
  function Trunc(x: real): (r: int)
    ensures 0.0 <= x ==> 0 <= r && r as real <= x < r as real + 1.0
    ensures x < 0.0 ==> r <= 0 && x <= r as real < x + 1.0
  {
    if 0.0 <= x then x.Floor else -((-x).Floor)
  }

  /** The genes of one polygon: an (x, y) pair per vertex, then R, G, B and alpha. */
  function ChunkSize(polySize: nat): nat {
    polySize * 2 + 4
  }

  // ---------------------------------------------------------------------------
  // splitList
  // ---------------------------------------------------------------------------

  /** `splitList`: consecutive slices of `chunkSize` elements; the last may be shorter. */
  function SplitList<T>(list: seq<T>, chunkSize: nat): (r: seq<seq<T>>)
    requires 0 < chunkSize
    ensures |r| == 0 <==> |list| == 0
    decreases |list|
  {
    if |list| == 0 then []
    else if |list| <= chunkSize then [list]
    else [list[..chunkSize]] + SplitList(list[chunkSize..], chunkSize)
  }

  function Flatten<T>(chunks: seq<seq<T>>): seq<T> {
    if |chunks| == 0 then [] else chunks[0] + Flatten(chunks[1..])
  }

  /** Concatenating the chunks gives back the list. */
  lemma {:induction false} SplitListFlatten<T>(list: seq<T>, chunkSize: nat)
    requires 0 < chunkSize
    ensures Flatten(SplitList(list, chunkSize)) == list
    decreases |list|
  {
    if |list| == 0 {
    } else if |list| <= chunkSize {
      assert Flatten([list]) == list + Flatten([]);
    } else {
      var chunks := SplitList(list, chunkSize);
      SplitListFlatten(list[chunkSize..], chunkSize);
      assert chunks[1..] == SplitList(list[chunkSize..], chunkSize);
      assert list == list[..chunkSize] + list[chunkSize..];
    }
  }

  /** Every chunk but the last is full; the last holds between 1 and chunkSize elements. */
  lemma {:induction false} SplitListSizes<T>(list: seq<T>, chunkSize: nat)
    requires 0 < chunkSize
    ensures var chunks := SplitList(list, chunkSize);
      && (|chunks| == 0 <==> |list| == 0)
      && (forall k :: 0 <= k < |chunks| - 1 ==> |chunks[k]| == chunkSize)
      && (0 < |chunks| ==> 0 < |chunks[|chunks| - 1]| <= chunkSize)
    decreases |list|
  {
    if chunkSize < |list| {
      var chunks := SplitList(list, chunkSize);
      var tail := SplitList(list[chunkSize..], chunkSize);
      SplitListSizes(list[chunkSize..], chunkSize);
      assert chunks == [list[..chunkSize]] + tail;
      forall k | 1 <= k < |chunks| - 1 ensures |chunks[k]| == chunkSize {
        assert chunks[k] == tail[k - 1];
      }
    }
  }

  /** There are ceil(len / chunkSize) chunks. */
  lemma {:induction false} SplitListCount<T>(list: seq<T>, chunkSize: nat)
    requires 0 < chunkSize
    ensures |SplitList(list, chunkSize)| == (|list| + chunkSize - 1) / chunkSize
    decreases |list|
  {
    var n := chunkSize;
    if |list| == 0 {
      DivSmall(n - 1, n);
    } else if |list| <= n {
      DivOnce(|list| - 1, n);
    } else {
      SplitListCount(list[n..], n);
      DivShift(|list| - n + n - 1, n);
    }
  }

  /** Chunk k is the slice from k * chunkSize up to the next multiple or the end. */
  lemma {:induction false} SplitListChunk<T>(list: seq<T>, chunkSize: nat, k: nat)
    requires 0 < chunkSize && k < |SplitList(list, chunkSize)|
    ensures k * chunkSize < |list|
    ensures SplitList(list, chunkSize)[k]
         == list[k * chunkSize .. if k * chunkSize + chunkSize <= |list| then k * chunkSize + chunkSize else |list|]
    decreases k
  {
    var n := chunkSize;
    if |list| <= n {
      assert SplitList(list, n) == [list];
      assert list[0..|list|] == list;
    } else {
      var rest := list[n..];
      assert SplitList(list, n) == [list[..n]] + SplitList(rest, n);
      if k == 0 {
        assert SplitList(list, n)[0] == list[..n] == list[0..n];
      } else {
        assert SplitList(list, n)[k] == SplitList(rest, n)[k - 1];
        SplitListChunk(rest, n, k - 1);
        var lo := (k - 1) * n;
        assert lo + n == k * n;
        var hi := if lo + n <= |rest| then lo + n else |rest|;
        assert hi + n == if k * n + n <= |list| then k * n + n else |list|;
        assert rest[lo..hi] == list[k * n .. hi + n];
      }
    }
  }

  /** Every chunk holds exactly chunkSize elements. */
  predicate AllFull<T>(chunks: seq<seq<T>>, chunkSize: nat) {
    forall k :: 0 <= k < |chunks| ==> |chunks[k]| == chunkSize
  }

  /** Every chunk is full exactly when the length is a multiple of chunkSize. */
  lemma {:induction false} SplitListAllFull<T>(list: seq<T>, chunkSize: nat)
    requires 0 < chunkSize
    ensures AllFull(SplitList(list, chunkSize), chunkSize) <==> |list| % chunkSize == 0
    decreases |list|
  {
    var n := chunkSize;
    var chunks := SplitList(list, n);
    if |list| == 0 {
      DivSmall(0, n);
    } else if |list| < n {
      assert chunks == [list];
      DivSmall(|list|, n);
      assert |chunks[0]| != n;
    } else if |list| == n {
      assert chunks == [list];
      DivModUnique(n, n, 1, 0);
    } else {
      var tail := SplitList(list[n..], n);
      SplitListAllFull(list[n..], n);
      assert chunks == [list[..n]] + tail;
      ModShift(|list| - n, n);
      if AllFull(tail, n) {
        forall k | 0 <= k < |chunks| ensures |chunks[k]| == n {
          if k > 0 { assert chunks[k] == tail[k - 1]; }
        }
      } else {
        var k :| 0 <= k < |tail| && |tail[k]| != n;
        assert chunks[k + 1] == tail[k];
      }
    }
  }

  lemma DivSmall(a: nat, n: nat)
    requires a < n
    ensures a / n == 0 && a % n == a
  {
  }

  lemma DivOnce(a: nat, n: nat)
    requires 0 < n && a < n
    ensures (a + n) / n == 1
  {
  }

  lemma DivShift(a: nat, n: nat)
    requires 0 < n
    ensures (a + n) / n == a / n + 1
  {
    DivModUnique(a + n, n, a / n + 1, a % n);
  }

  lemma ModShift(a: nat, n: nat)
    requires 0 < n
    ensures (a + n) % n == a % n
  {
    DivModUnique(a + n, n, a / n + 1, a % n);
  }

  /** Quotient and remainder are the only pair with x == q * n + r and 0 <= r < n. */
  lemma DivModUnique(x: int, n: int, q: int, r: int)
    requires 0 < n && 0 <= r < n && x == q * n + r
    ensures x / n == q && x % n == r
  {
    var d := x / n - q;
    assert d * n == r - x % n;
    if d >= 1 {
      MulMono(1, d, n);
    } else if d <= -1 {
      MulMono(1, -d, n);
    }
  }

  // ---------------------------------------------------------------------------
  // The decoding part of polygonDataToImage
  // ---------------------------------------------------------------------------

  /** Vertex k of a chunk: its genes 2k and 2k+1 scaled to the canvas and truncated. */
  function VertexAt(poly: seq<real>, k: nat, width: nat, height: nat): Point
    requires 2 * k + 1 < |poly|
  {
    Point(Trunc(poly[2 * k] * width as real), Trunc(poly[2 * k + 1] * height as real))
  }

  /** Colour component c (0 red, 1 green, 2 blue, 3 alpha) of a chunk, scaled to 0..255. */
  function ColourAt(poly: seq<real>, polySize: nat, c: nat): int
    requires c < 4 && 2 * polySize + c < |poly|
  {
    Trunc(poly[2 * polySize + c] * 255.0)
  }

  /**
   * What decoding one chunk yields: an index error when the chunk is shorter
   * than 2 * polySize + 4, otherwise polySize vertices and the colour.
   */
  function DecodeChunk(poly: seq<real>, polySize: nat, width: nat, height: nat): (r: Result<Polygon>)
    ensures r.Ok? <==> ChunkSize(polySize) <= |poly|
    ensures r.Ok? ==> |r.value.vertices| == polySize
  {
    if |poly| < ChunkSize(polySize) then Err(IndexError)
    else
      Ok(Polygon(
        seq(polySize, k requires 0 <= k < polySize => VertexAt(poly, k, width, height)),
        ColourAt(poly, polySize, 0), ColourAt(poly, polySize, 1),
        ColourAt(poly, polySize, 2), ColourAt(poly, polySize, 3)))
  }

  /**
   * Reference definition of decoding a whole chromosome, by index arithmetic:
   * polygon i comes from genes i * chunk up to (i + 1) * chunk, and a length
   * that is not a multiple of the chunk size is an index error.
   */
  function DecodeAll(polyData: seq<real>, polySize: nat, width: nat, height: nat): (r: Result<seq<Polygon>>)
    ensures r.Ok? <==> |polyData| % ChunkSize(polySize) == 0
    ensures r.Ok? ==> |r.value| == |polyData| / ChunkSize(polySize)
  {
    var n := ChunkSize(polySize);
    if |polyData| % n != 0 then Err(IndexError)
    else
      var count := |polyData| / n;
      Ok(seq(count, i requires 0 <= i < count =>
        ChunkInBounds(i, count, n, |polyData|);
        DecodeChunk(polyData[i * n .. i * n + n], polySize, width, height).value))
  }

  lemma ChunkInBounds(i: nat, count: nat, n: nat, len: nat)
    requires 0 < n && len % n == 0 && count == len / n && i < count
    ensures i * n + n <= len
  {
    assert len == count * n;
    assert i + 1 <= count;
    MulMono(i + 1, count, n);
  }

  lemma MulMono(a: nat, b: nat, n: nat)
    requires a <= b
    ensures a * n <= b * n
  {
  }

  /**
   * The vertex-and-colour extraction of `polygonDataToImage` for one chunk:
   * the vertex list grows by one (x, y) pair per step while the index moves by
   * two, then the four colour genes follow. An index past the chunk's end is
   * an IndexError at the point Python would raise it.
   */
  method ExtractPolygon(poly: seq<real>, polySize: nat, width: nat, height: nat) returns (r: Result<Polygon>)
    ensures r == DecodeChunk(poly, polySize, width, height)
  {
    var index := 0;
    var vertices: seq<Point> := [];
    var vertex := 0;
    while vertex < polySize
      invariant 0 <= vertex <= polySize && index == 2 * vertex
      invariant vertex > 0 ==> index <= |poly|
      invariant |vertices| == vertex
      invariant forall k :: 0 <= k < vertex ==> vertices[k] == VertexAt(poly, k, width, height)
    {
      if |poly| <= index + 1 {
        return Err(IndexError);
      }
      vertices := vertices + [VertexAt(poly, vertex, width, height)];
      index := index + 2;
      vertex := vertex + 1;
    }
    if |poly| <= index + 3 {
      return Err(IndexError);
    }
    var red := ColourAt(poly, polySize, 0);
    var green := ColourAt(poly, polySize, 1);
    var blue := ColourAt(poly, polySize, 2);
    var alpha := ColourAt(poly, polySize, 3);
    assert vertices == seq(polySize, k requires 0 <= k < polySize => VertexAt(poly, k, width, height));
    r := Ok(Polygon(vertices, red, green, blue, alpha));
  }

  /** Paints successfully decoded polygons; a decoding error passes through. */
  function Painted(t: TestImage, decoded: Result<seq<Polygon>>): Result<Image> {
    match decoded
    case Ok(polygons) => Ok(t.paint(polygons))
    case Err(e) => Err(e)
  }

  /**
   * Decoding chunk by chunk, as `polygonDataToImage` walks the chunks of
   * `splitList`, agrees with the reference decoding: it fails exactly when
   * some chunk is short, and otherwise polygon k is the decoding of chunk k.
   */
  lemma DecodeAllByChunks(polyData: seq<real>, polySize: nat, width: nat, height: nat)
    ensures var chunks := SplitList(polyData, ChunkSize(polySize));
      var decoded := DecodeAll(polyData, polySize, width, height);
      && (decoded.Ok? <==> AllFull(chunks, ChunkSize(polySize)))
      && (decoded.Ok? ==>
            && |decoded.value| == |chunks|
            && forall k :: 0 <= k < |chunks| ==>
                 decoded.value[k] == DecodeChunk(chunks[k], polySize, width, height).value)
  {
    var n := ChunkSize(polySize);
    var chunks := SplitList(polyData, n);
    var decoded := DecodeAll(polyData, polySize, width, height);
    SplitListAllFull(polyData, n);
    if decoded.Ok? {
      SplitListCount(polyData, n);
      CeilExact(|polyData|, n);
      forall k | 0 <= k < |chunks|
        ensures decoded.value[k] == DecodeChunk(chunks[k], polySize, width, height).value
      {
        SplitListChunk(polyData, n, k);
        ChunkInBounds(k, |chunks|, n, |polyData|);
      }
    }
  }

  /**
   * `polygonDataToImage`: split the chromosome into chunks, decode each chunk
   * in order and paint the polygons; its result agrees with the reference
   * decoding by index arithmetic.
   */
  method PolygonDataToImage(t: TestImage, polyData: seq<real>) returns (r: Result<Image>)
    ensures r == Painted(t, DecodeAll(polyData, t.polySize, t.width, t.height))
  {
    var chunkSize := t.polySize * 2 + 4;
    var polygons := SplitList(polyData, chunkSize);
    DecodeAllByChunks(polyData, t.polySize, t.width, t.height);
    SplitListSizes(polyData, chunkSize);
    var drawn: seq<Polygon> := [];
    var i := 0;
    while i < |polygons|
      invariant 0 <= i <= |polygons|
      invariant |drawn| == i
      invariant forall k :: 0 <= k < i ==> |polygons[k]| == chunkSize
      invariant forall k :: 0 <= k < i ==> drawn[k] == DecodeChunk(polygons[k], t.polySize, t.width, t.height).value
    {
      var p := ExtractPolygon(polygons[i], t.polySize, t.width, t.height);
      if p.Err? {
        assert !AllFull(polygons, chunkSize) by {
          assert |polygons[i]| != chunkSize;
        }
        return Err(p.error);
      }
      drawn := drawn + [p.value];
      i := i + 1;
    }
    assert AllFull(polygons, chunkSize);
    ghost var expected := DecodeAll(polyData, t.polySize, t.width, t.height);
    assert drawn == expected.value;
    r := Ok(t.paint(drawn));
  }

  lemma CeilExact(len: nat, n: nat)
    requires 0 < n && len % n == 0
    ensures (len + n - 1) / n == len / n
  {
    DivModUnique(len + n - 1, n, len / n, n - 1);
  }

  /** For genes in [0, 1], truncating gene * d gives a value in 0..d. */
  lemma {:induction false} TruncScaled(g: real, d: nat)
    requires 0.0 <= g <= 1.0
    ensures 0 <= Trunc(g * d as real) <= d
  {
    var x := g * d as real;
    FractionBounds(g, d as real);
    assert x.Floor as real <= x;
  }

  /** A fraction in [0, 1] of a non-negative real lies between 0 and that real. */
  lemma FractionBounds(g: real, d: real)
    requires 0.0 <= g <= 1.0 && 0.0 <= d
    ensures 0.0 <= g * d <= d
  {
    assert (1.0 - g) * d >= 0.0;
  }

  /**
   * For a chromosome in [0, 1], every decoded vertex lies in
   * [0, width] x [0, height] and every colour component in 0..255.
   */
  lemma DecodedInRange(polyData: seq<real>, polySize: nat, width: nat, height: nat)
    requires InUnit(polyData)
    requires DecodeAll(polyData, polySize, width, height).Ok?
    ensures var polygons := DecodeAll(polyData, polySize, width, height).value;
      forall i :: 0 <= i < |polygons| ==> PolygonInRange(polygons[i], polySize, width, height)
  {
    var n := ChunkSize(polySize);
    var polygons := DecodeAll(polyData, polySize, width, height).value;
    forall i | 0 <= i < |polygons|
      ensures PolygonInRange(polygons[i], polySize, width, height)
    {
      ChunkInBounds(i, |polygons|, n, |polyData|);
      var poly := polyData[i * n .. i * n + n];
      assert polygons[i] == DecodeChunk(poly, polySize, width, height).value;
      ChunkInRange(poly, polySize, width, height);
    }
  }

  /** A polygon has polySize vertices inside [0, width] x [0, height] and colour components in 0..255. */
  predicate PolygonInRange(p: Polygon, polySize: nat, width: nat, height: nat) {
    && |p.vertices| == polySize
    && (forall k :: 0 <= k < polySize ==> 0 <= p.vertices[k].x <= width && 0 <= p.vertices[k].y <= height)
    && 0 <= p.red <= 255 && 0 <= p.green <= 255 && 0 <= p.blue <= 255 && 0 <= p.alpha <= 255
  }

  /** A full chunk of genes in [0, 1] decodes to a polygon in range. */
  lemma ChunkInRange(poly: seq<real>, polySize: nat, width: nat, height: nat)
    requires InUnit(poly)
    requires ChunkSize(polySize) <= |poly|
    ensures PolygonInRange(DecodeChunk(poly, polySize, width, height).value, polySize, width, height)
  {
    var p := DecodeChunk(poly, polySize, width, height).value;
    forall k | 0 <= k < polySize
      ensures 0 <= p.vertices[k].x <= width && 0 <= p.vertices[k].y <= height
    {
      TruncScaled(poly[2 * k], width);
      TruncScaled(poly[2 * k + 1], height);
    }
    TruncScaled(poly[2 * polySize], 255);
    TruncScaled(poly[2 * polySize + 1], 255);
    TruncScaled(poly[2 * polySize + 2], 255);
    TruncScaled(poly[2 * polySize + 3], 255);
  }

  // ---------------------------------------------------------------------------
  // calculateMse and getDifference
  // ---------------------------------------------------------------------------

  function Square(d: int): nat {
    d * d
  }

  function PixelError(a: Pixel, b: Pixel): nat {
    Square(a.blue - b.blue) + Square(a.green - b.green) + Square(a.red - b.red)
  }

  /** Sum over all pixels and channels of the squared difference; zero only for equal images. */
  function SumSquaredError(image: Image, reference: Image): (s: nat)
    requires |image| == |reference|
    ensures s == 0 <==> image == reference
    decreases |image|
  {
    if |image| == 0 then 0
    else
      var rest := SumSquaredError(image[1..], reference[1..]);
      assert PixelError(image[0], reference[0]) == 0 <==> image[0] == reference[0];
      assert image == [image[0]] + image[1..] && reference == [reference[0]] + reference[1..];
      PixelError(image[0], reference[0]) + rest
  }

  /**
   * `calculateMse`: the summed squared error divided by the pixel count (not
   * by pixels times channels). It is never negative and is zero exactly when
   * the image equals the reference.
   */
  function CalculateMse(t: TestImage, image: Image): (r: real)
    requires t.Valid() && |image| == |t.reference|
    ensures 0.0 <= r
    ensures r == 0.0 <==> image == t.reference
  {
    SumSquaredError(image, t.reference) as real / t.NumPixels() as real
  }

  /**
   * `getDifference`: decode and paint the chromosome, then score it with the
   * MSE when the method is "MSE" and with one minus the structural similarity
   * for any other method name. Larger means more different.
   */
  method GetDifference(t: TestImage, polyData: seq<real>, methodName: string) returns (r: Result<real>)
    requires t.Valid()
    ensures DecodeAll(polyData, t.polySize, t.width, t.height).Err? ==> r == Err(IndexError)
    ensures DecodeAll(polyData, t.polySize, t.width, t.height).Ok? ==>
      var image := t.paint(DecodeAll(polyData, t.polySize, t.width, t.height).value);
      if |image| != |t.reference| then r == Err(ShapeMismatch)
      else if methodName == "MSE" then r == Ok(CalculateMse(t, image))
      else r == Ok(1.0 - t.similarity(image, t.reference))
    ensures r == Err(IndexError) <==> |polyData| % ChunkSize(t.polySize) != 0
    ensures r.Ok? && methodName == "MSE" ==> 0.0 <= r.value
    ensures r.Ok? && methodName == "MSE" ==>
      (r.value == 0.0 <==> t.paint(DecodeAll(polyData, t.polySize, t.width, t.height).value) == t.reference)
  {
    var image := PolygonDataToImage(t, polyData);
    if image.Err? {
      return Err(image.error);
    }
    if |image.value| != |t.reference| {
      return Err(ShapeMismatch);
    }
    if methodName == "MSE" {
      r := Ok(CalculateMse(t, image.value));
    } else {
      r := Ok(1.0 - t.similarity(image.value, t.reference));
    }
  }
}
