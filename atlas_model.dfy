/**
 * The values the atlas creators work on: maps, layers, directories, the exceptions they throw
 * and the file-system actions they perform. This module also holds what the two creators share
 * with their base class: the pixel coordinates fed into the projection for the four bounds.
 */
module AtlasModel {
  import opened Wrappers

  /** The projection family of a map space; only the Mercator power-of-two kind is named. */
  datatype Projection = MercatorPower2 | OtherProjection(id: nat)

  /** A map space: a projection and the pixel size of its tiles. */
  datatype MapSpace = MapSpace(projection: Projection, tileSize: int)

  /** Output encodings of tiles; JPEG at quality 90 is the one the OruxMaps creator names. */
  datatype TileImageFormat = JPEG90 | OtherFormat(name: string)

  datatype TileImageParameters = TileImageParameters(width: int, height: int, format: TileImageFormat)

  /**
   * One map of an atlas: a zoom level, the tile rectangle [xMin, xMax] x [yMin, yMax] (tile
   * indices), the map space of its source and the tile parameters the user chose (or null).
   */
  datatype MapDef = MapDef(
    name: string, zoom: int,
    xMin: int, xMax: int, yMin: int, yMax: int,
    mapSpace: MapSpace,
    parameters: Option<TileImageParameters>)

  datatype Layer = Layer(name: string, maps: seq<MapDef>)

  /** A java.io.File, as its sequence of path components. */
  datatype Path = Path(segments: seq<string>)

  /** The entry called name inside the directory dir. */
  function Child(dir: Path, name: string): (p: Path)
    ensures |p.segments| == |dir.segments| + 1
    ensures p.segments[..|dir.segments|] == dir.segments && p.segments[|dir.segments|] == name
  {
    Path(dir.segments + [name])
  }

  /**
   * A double as the creators print it: `plain` is Double.toString (string concatenation),
   * `fixed6` is String.format(Locale.ENGLISH, "%2.6f").
   */
  datatype Degrees = Degrees(plain: string, fixed6: string)

  /** What the creators' methods can throw; JavaError stands for a java.lang.Error, which a
      catch of Exception does not catch. */
  datatype Exception =
    | IOException(message: string)
    | InterruptedException
    | TileException(message: string)
    | RuntimeException(message: string)
    | MapCreationException(detail: Option<string>, failedMap: MapDef, cause: Exception)
    | JavaError(message: string)

  /** What a call into code outside the model (file system, tile builder) does: returns or throws. */
  datatype Step = Done | Throws(exception: Exception)

  /** A file-system effect, in the order the creator performs them; CreateFile creates a file
      or truncates it to empty. */
  datatype Action =
    | MkDir(dir: Path)
    | MkDirs(dir: Path)
    | CreateFile(file: Path)
    | WriteText(file: Path, text: string)
    | WriteBytes(file: Path, data: seq<bv8>)
    | TilesCreated(dir: Path)

  /** The tile size the creators read from the map's map space. */
  function TileSize(m: MapDef): int { m.mapSpace.tileSize }

  /** The width in pixels of a map: its number of tile columns times the tile size. */
  function MapWidth(m: MapDef): int { (m.xMax - m.xMin + 1) * TileSize(m) }

  /** The height in pixels of a map: its number of tile rows times the tile size. */
  function MapHeight(m: MapDef): int { (m.yMax - m.yMin + 1) * TileSize(m) }

  /** The pixel coordinate handed to the projection for each of the four bounds. */
  datatype PixelBounds = PixelBounds(lonMinX: int, lonMaxX: int, latMinY: int, latMaxY: int)

  /**
   * The west edge is the left pixel of tile xMin, the east edge the right pixel of tile xMax;
   * pixel y grows southwards, so the south edge (latitudeMin) is the bottom of tile yMax and the
   * north edge (latitudeMax) the top of tile yMin.
   */
  function BoundPixels(m: MapDef): (b: PixelBounds)
    ensures b.lonMaxX - b.lonMinX == MapWidth(m)
    ensures b.latMinY - b.latMaxY == MapHeight(m)
    ensures b.lonMinX == m.xMin * TileSize(m) && b.latMaxY == m.yMin * TileSize(m)
  {
    var ts := TileSize(m);
    var b := PixelBounds(m.xMin * ts, (m.xMax + 1) * ts, (m.yMax + 1) * ts, m.yMin * ts);
    assert (m.xMax + 1) * ts - m.xMin * ts == (m.xMax - m.xMin + 1) * ts;
    assert (m.yMax + 1) * ts - m.yMin * ts == (m.yMax - m.yMin + 1) * ts;
    b
  }

  /** The four bounds in degrees: the projection (cXToLon, cYToLat at the map's zoom) applied. */
  datatype GeoBounds = GeoBounds(lonMin: Degrees, lonMax: Degrees, latMin: Degrees, latMax: Degrees)

  function Project(b: PixelBounds, lonOf: int -> Degrees, latOf: int -> Degrees): GeoBounds
  {
    GeoBounds(lonOf(b.lonMinX), lonOf(b.lonMaxX), latOf(b.latMinY), latOf(b.latMaxY))
  }

  /** A non-empty rectangle of positive-size tiles has its east edge east of its west edge and
      its north edge above its south edge, in pixels. */
  lemma BoundsOrdered(m: MapDef)
    requires m.xMin <= m.xMax && m.yMin <= m.yMax && TileSize(m) > 0
    ensures BoundPixels(m).lonMinX < BoundPixels(m).lonMaxX
    ensures BoundPixels(m).latMaxY < BoundPixels(m).latMinY
  {
    var ts := TileSize(m);
    assert (m.xMax - m.xMin + 1) * ts > 0;
    assert (m.yMax - m.yMin + 1) * ts > 0;
  }

  /** Java's int division, which truncates toward zero. */
  function JavaDiv(a: int, b: int): (q: int)
    requires b != 0
    ensures a >= 0 && b > 0 ==> q == a / b
  {
    var q := (if a < 0 then -a else a) / (if b < 0 then -b else b);
    if (a < 0) != (b < 0) then -q else q
  }

  /** The first exception thrown by a sequence of steps; later steps are not run. */
  function FirstFailure(steps: seq<Step>): Option<Exception>
  {
    if steps == [] then None
    else if steps[0].Throws? then Some(steps[0].exception)
    else FirstFailure(steps[1..])
  }

  /** No failure exactly when every step completes; otherwise the failure is that of a step
      that throws after only completed ones. */
  lemma {:induction false} FirstFailureSpec(steps: seq<Step>)
    ensures var e := FirstFailure(steps);
      && (e.None? <==> forall k :: 0 <= k < |steps| ==> steps[k].Done?)
      && (e.Some? ==> exists k :: 0 <= k < |steps| && steps[k] == Throws(e.value) &&
                                forall j :: 0 <= j < k ==> steps[j].Done?)
  {
    if steps != [] && steps[0].Done? {
      FirstFailureSpec(steps[1..]);
      assert forall k :: 1 <= k < |steps| ==> steps[k] == steps[1..][k - 1];
      var e := FirstFailure(steps);
      if e.Some? {
        var k :| 0 <= k < |steps[1..]| && steps[1..][k] == Throws(e.value) &&
                 forall j :: 0 <= j < k ==> steps[1..][j].Done?;
        assert steps[k + 1] == Throws(e.value);
      }
    }
  }

  /** The first failure of four steps run in order. */
  lemma FirstFailureOfFour(a: Step, b: Step, c: Step, d: Step)
    ensures FirstFailure([a, b, c, d]) ==
      if a.Throws? then Some(a.exception) else if b.Throws? then Some(b.exception)
      else if c.Throws? then Some(c.exception) else if d.Throws? then Some(d.exception) else None
  {
    assert FirstFailure([d]) == if d.Throws? then Some(d.exception) else None by {
      assert [d][1..] == [];
    }
    assert FirstFailure([c, d]) == if c.Throws? then Some(c.exception) else FirstFailure([d]) by {
      assert [c, d][1..] == [d];
    }
    assert FirstFailure([b, c, d]) == if b.Throws? then Some(b.exception) else FirstFailure([c, d]) by {
      assert [b, c, d][1..] == [c, d];
    }
    assert [a, b, c, d][1..] == [b, c, d];
  }

  /** The number of steps that complete before the first one that throws. */
  function LeadingDone(steps: seq<Step>): nat
  {
    if steps == [] || steps[0].Throws? then 0 else 1 + LeadingDone(steps[1..])
  }

  /** The steps before LeadingDone(steps) complete, the one at it (if any) throws, and that is
      the first failure. */
  lemma {:induction false} LeadingDoneSpec(steps: seq<Step>)
    ensures var n := LeadingDone(steps);
      && n <= |steps|
      && (forall k :: 0 <= k < n ==> steps[k].Done?)
      && (n < |steps| ==> steps[n].Throws?)
      && FirstFailure(steps) == (if n == |steps| then None else Some(steps[n].exception))
  {
    if steps != [] && steps[0].Done? {
      LeadingDoneSpec(steps[1..]);
      assert forall k :: 1 <= k < |steps| ==> steps[k] == steps[1..][k - 1];
    }
  }

  /** Three steps run in order: how many complete, and the first failure. */
  lemma StepsOfThree(a: Step, b: Step, c: Step)
    ensures LeadingDone([a, b, c]) == if a.Throws? then 0 else if b.Throws? then 1 else if c.Throws? then 2 else 3
    ensures FirstFailure([a, b, c]) ==
      if a.Throws? then Some(a.exception) else if b.Throws? then Some(b.exception)
      else if c.Throws? then Some(c.exception) else None
  {
    assert LeadingDone([c]) == (if c.Throws? then 0 else 1) && FirstFailure([c]) == (if c.Throws? then Some(c.exception) else None) by {
      assert [c][1..] == [];
    }
    assert [b, c][1..] == [c];
    assert [a, b, c][1..] == [b, c];
  }
}
