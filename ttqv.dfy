/**
 * The Touratech QV atlas creator: each map becomes a PNG image in the layer directory and a
 * calibration file "<map>_png.cal" of CRLF-terminated "key = type = value" lines, which pins
 * four image pixels to the geographic corners of the map. The projected bounds, the program
 * title and the printed scale are inputs.
 */
module Ttqv {
  import opened Wrappers
  import opened AtlasModel
  import opened Text
  import OruxMaps

  const CRLF: string := "\r\n"

  /** The keys of a calibration file; cN_x, cN_y, cN_lat and cN_lon belong to corner N. */
  datatype Key =
    | Name | FName | Nord | Sued | Ost | West
    | ScaleArea | ProjMode | ProjParams | Datum1
    | PixelX(corner: int) | PixelY(corner: int) | Lat(corner: int) | Lon(corner: int)

  function KeyText(k: Key): string
  {
    match k
    case Name => "name"
    case FName => "fname"
    case Nord => "nord"
    case Sued => "sued"
    case Ost => "ost"
    case West => "west"
    case ScaleArea => "scale_area"
    case ProjMode => "proj_mode"
    case ProjParams => "projparams"
    case Datum1 => "datum1"
    case PixelX(n) => "c" + IntToString(n) + "_x"
    case PixelY(n) => "c" + IntToString(n) + "_y"
    case Lat(n) => "c" + IntToString(n) + "_lat"
    case Lon(n) => "c" + IntToString(n) + "_lon"
  }

  /**
   * A value with its QV type code: 10 for text, 6 for the bounds ("%2.6f") and the scale, 7
   * for the corners (pixels as integers, degrees as "%2.6f"). The scale and the corner values
   * are printed after two spaces.
   */
  datatype Value =
    | Text10(text: string)
    | Degrees6(deg: Degrees)
    | Scale6(scale: string)
    | Pixel7(pixel: int)
    | Degrees7(deg: Degrees)

  function TypeCode(v: Value): string
  {
    match v
    case Text10(_) => "10"
    case Degrees6(_) | Scale6(_) => "6"
    case Pixel7(_) | Degrees7(_) => "7"
  }

  function ValueText(v: Value): string
  {
    match v
    case Text10(s) => s
    case Degrees6(d) => d.fixed6
    case Scale6(s) => " " + s
    case Pixel7(i) => " " + IntToString(i)
    case Degrees7(d) => " " + d.fixed6
  }

  /** One line of a calibration file: a "; " comment or a key assignment. */
  datatype CalLine = Comment(text: string) | Field(key: Key, value: Value)

  /** The text of one line. */
  function RenderLine(l: CalLine): string
  {
    match l
    case Comment(s) => "; " + s + CRLF
    case Field(k, v) => KeyText(k) + " = " + TypeCode(v) + " = " + ValueText(v) + CRLF
  }

  /** Every line ends in CRLF. */
  lemma RenderLineEndsInCrlf(l: CalLine)
    ensures var t := RenderLine(l); |t| >= 2 && t[|t| - 2..] == CRLF
  {
    var t := RenderLine(l);
    var body := if l.Comment? then "; " + l.text else KeyText(l.key) + " = " + TypeCode(l.value) + " = " + ValueText(l.value);
    assert t == body + CRLF;
    assert t[|t| - 2..] == CRLF;
  }

  /** The text of a file: its lines one after the other. */
  function Render(lines: seq<CalLine>): string
  {
    if lines == [] then "" else Render(lines[..|lines| - 1]) + RenderLine(lines[|lines| - 1])
  }

  lemma RenderSnoc(lines: seq<CalLine>, l: CalLine)
    ensures Render(lines + [l]) == Render(lines) + RenderLine(l)
  {
    assert (lines + [l])[..|lines|] == lines;
  }

  /** A file of n lines has at least two characters per line and, unless empty, ends in CRLF. */
  lemma {:induction false} RenderEndsInCrlf(lines: seq<CalLine>)
    ensures var t := Render(lines); |t| >= 2 * |lines| && (lines != [] ==> t[|t| - 2..] == CRLF)
  {
    if lines != [] {
      var init, last := lines[..|lines| - 1], lines[|lines| - 1];
      RenderEndsInCrlf(init);
      RenderLineEndsInCrlf(last);
      var t := Render(lines);
      assert t == Render(init) + RenderLine(last);
      assert t[|t| - 2..] == RenderLine(last)[|RenderLine(last)| - 2..];
    }
  }

  /** Keys are told apart by their text: Integer.toString has no underscore, the corner keys
      all start with 'c' and no other key does. */
  lemma KeyTextInjective(k1: Key, k2: Key)
    requires KeyText(k1) == KeyText(k2)
    ensures k1 == k2
  {
    KeyTextStart(k1);
    KeyTextStart(k2);
    if CornerKey(k1) && CornerKey(k2) {
      var n1, n2 := CornerOf(k1), CornerOf(k2);
      var s1, s2 := CornerSuffix(k1), CornerSuffix(k2);
      assert KeyText(k1) == "c" + (IntToString(n1) + "_" + s1);
      assert KeyText(k2) == "c" + (IntToString(n2) + "_" + s2);
      assert IntToString(n1) + "_" + s1 == KeyText(k1)[1..];
      assert IntToString(n2) + "_" + s2 == KeyText(k2)[1..];
      OruxMaps.IntToStringHasNoUnderscore(n1);
      OruxMaps.IntToStringHasNoUnderscore(n2);
      OruxMaps.SplitAtFirstUnderscore(IntToString(n1), s1, IntToString(n2), s2);
      IntToStringInjective(n1, n2);
    }
  }

  lemma KeyTextStart(k: Key)
    ensures |KeyText(k)| > 0 && (KeyText(k)[0] == 'c' <==> CornerKey(k))
  {
  }

  predicate CornerKey(k: Key) { k.PixelX? || k.PixelY? || k.Lat? || k.Lon? }

  function CornerOf(k: Key): int
    requires CornerKey(k)
  {
    match k
    case PixelX(n) => n
    case PixelY(n) => n
    case Lat(n) => n
    case Lon(n) => n
  }

  function CornerSuffix(k: Key): string
    requires CornerKey(k)
  {
    match k
    case PixelX(_) => "x"
    case PixelY(_) => "y"
    case Lat(_) => "lat"
    case Lon(_) => "lon"
  }

  /** A pixel of the image: column x from the left, row y from the top. */
  datatype PixelPoint = PixelPoint(x: int, y: int)

  datatype GeoPoint = GeoPoint(lat: Degrees, lon: Degrees)

  /**
   * What a calibration file states: the image it belongs to (twice, as "name" and "fname"),
   * the four bounds, the printed scale, the image pixels of the nine corners (only the first
   * four are used) and the geographic position of the first four.
   */
  datatype QvCalibration = QvCalibration(
    name: string, fname: string,
    nord: Degrees, sued: Degrees, ost: Degrees, west: Degrees,
    scale: string,
    pixelCorners: seq<PixelPoint>, geoCorners: seq<GeoPoint>)

  predicate WellFormed(c: QvCalibration)
  {
    |c.pixelCorners| == 9 && |c.geoCorners| == 4
  }

  /** The image a map is saved as, next to its calibration file. */
  function ImageName(mapName: string): string { mapName + ".png" }

  /** The calibration file of a map: "<map>_png.cal" in the layer directory. */
  function CalFile(layerDir: Path, mapName: string): Path { Child(layerDir, mapName + "_png.cal") }

  /**
   * The values writeCalFile computes for a width x height image whose bounds are b: the
   * pixel corners c1 = (0, 0), c2 = (width - 1, 0), c3 = (width - 1, height - 1),
   * c4 = (0, height - 1), c5 to c9 = (0, 0); the geographic corners c1 = (latMax, lonMin),
   * c2 = (latMax, lonMax), c3 = (latMin, lonMax), c4 = (latMin, lonMin).
   */
  function Calibration(mapName: string, width: int, height: int, b: GeoBounds, scale: string): QvCalibration
  {
    QvCalibration(ImageName(mapName), ImageName(mapName), b.latMax, b.latMin, b.lonMax, b.lonMin, scale,
      [PixelPoint(0, 0), PixelPoint(width - 1, 0), PixelPoint(width - 1, height - 1), PixelPoint(0, height - 1),
       PixelPoint(0, 0), PixelPoint(0, 0), PixelPoint(0, 0), PixelPoint(0, 0), PixelPoint(0, 0)],
      [GeoPoint(b.latMax, b.lonMin), GeoPoint(b.latMax, b.lonMax), GeoPoint(b.latMin, b.lonMax), GeoPoint(b.latMin, b.lonMin)])
  }

  /** The calibration of a map: the image is (xMax - xMin + 1) x (yMax - yMin + 1) tiles, and
      the bounds are projected from the pixels of the tile rectangle's edges. */
  function MapCalibration(m: MapDef, mapName: string, lonOf: int -> Degrees, latOf: int -> Degrees, scale: string): QvCalibration
  {
    Calibration(mapName, MapWidth(m), MapHeight(m), Project(BoundPixels(m), lonOf, latOf), scale)
  }

  /** The calibration file line by line, in the order it is written. */
  function CalLines(title: string, c: QvCalibration): seq<CalLine>
    requires WellFormed(c)
  {
    [Comment("Calibration File for QV Map")]
      + [Comment("generated by " + title)]
      + [Field(Name, Text10(c.name))]
      + [Field(FName, Text10(c.fname))]
      + [Field(Nord, Degrees6(c.nord))]
      + [Field(Sued, Degrees6(c.sued))]
      + [Field(Ost, Degrees6(c.ost))]
      + [Field(West, Degrees6(c.west))]
      + [Field(ScaleArea, Scale6(c.scale))]
      + [Field(ProjMode, Text10("proj"))]
      + [Field(ProjParams, Text10("proj=merc"))]
      + [Field(Datum1, Text10("WGS 84# 6378137# 298.257223563# 0# 0# 0#"))]
      + [Field(PixelX(1), Pixel7(c.pixelCorners[0].x))]
      + [Field(PixelY(1), Pixel7(c.pixelCorners[0].y))]
      + [Field(PixelX(2), Pixel7(c.pixelCorners[1].x))]
      + [Field(PixelY(2), Pixel7(c.pixelCorners[1].y))]
      + [Field(PixelX(3), Pixel7(c.pixelCorners[2].x))]
      + [Field(PixelY(3), Pixel7(c.pixelCorners[2].y))]
      + [Field(PixelX(4), Pixel7(c.pixelCorners[3].x))]
      + [Field(PixelY(4), Pixel7(c.pixelCorners[3].y))]
      + [Field(PixelX(5), Pixel7(c.pixelCorners[4].x))]
      + [Field(PixelY(5), Pixel7(c.pixelCorners[4].y))]
      + [Field(PixelX(6), Pixel7(c.pixelCorners[5].x))]
      + [Field(PixelY(6), Pixel7(c.pixelCorners[5].y))]
      + [Field(PixelX(7), Pixel7(c.pixelCorners[6].x))]
      + [Field(PixelY(7), Pixel7(c.pixelCorners[6].y))]
      + [Field(PixelX(8), Pixel7(c.pixelCorners[7].x))]
      + [Field(PixelY(8), Pixel7(c.pixelCorners[7].y))]
      + [Field(PixelX(9), Pixel7(c.pixelCorners[8].x))]
      + [Field(PixelY(9), Pixel7(c.pixelCorners[8].y))]
      + [Field(Lat(1), Degrees7(c.geoCorners[0].lat))]
      + [Field(Lon(1), Degrees7(c.geoCorners[0].lon))]
      + [Field(Lat(2), Degrees7(c.geoCorners[1].lat))]
      + [Field(Lon(2), Degrees7(c.geoCorners[1].lon))]
      + [Field(Lat(3), Degrees7(c.geoCorners[2].lat))]
      + [Field(Lon(3), Degrees7(c.geoCorners[2].lon))]
      + [Field(Lat(4), Degrees7(c.geoCorners[3].lat))]
      + [Field(Lon(4), Degrees7(c.geoCorners[3].lon))]
  }

  function CalText(title: string, c: QvCalibration): string
    requires WellFormed(c)
  {
    Render(CalLines(title, c))
  }

  /** The file for Calibration(...) as the thirty-eight writes that produce it. */
  lemma CalTextAppends(title: string, mapName: string, width: int, height: int, b: GeoBounds, scale: string)
    ensures WellFormed(Calibration(mapName, width, height, b, scale))
    ensures CalText(title, Calibration(mapName, width, height, b, scale)) == ""
      + RenderLine(Comment("Calibration File for QV Map"))
      + RenderLine(Comment("generated by " + title))
      + RenderLine(Field(Name, Text10(mapName + ".png")))
      + RenderLine(Field(FName, Text10(mapName + ".png")))
      + RenderLine(Field(Nord, Degrees6(b.latMax)))
      + RenderLine(Field(Sued, Degrees6(b.latMin)))
      + RenderLine(Field(Ost, Degrees6(b.lonMax)))
      + RenderLine(Field(West, Degrees6(b.lonMin)))
      + RenderLine(Field(ScaleArea, Scale6(scale)))
      + RenderLine(Field(ProjMode, Text10("proj")))
      + RenderLine(Field(ProjParams, Text10("proj=merc")))
      + RenderLine(Field(Datum1, Text10("WGS 84# 6378137# 298.257223563# 0# 0# 0#")))
      + RenderLine(Field(PixelX(1), Pixel7(0)))
      + RenderLine(Field(PixelY(1), Pixel7(0)))
      + RenderLine(Field(PixelX(2), Pixel7(width - 1)))
      + RenderLine(Field(PixelY(2), Pixel7(0)))
      + RenderLine(Field(PixelX(3), Pixel7(width - 1)))
      + RenderLine(Field(PixelY(3), Pixel7(height - 1)))
      + RenderLine(Field(PixelX(4), Pixel7(0)))
      + RenderLine(Field(PixelY(4), Pixel7(height - 1)))
      + RenderLine(Field(PixelX(5), Pixel7(0)))
      + RenderLine(Field(PixelY(5), Pixel7(0)))
      + RenderLine(Field(PixelX(6), Pixel7(0)))
      + RenderLine(Field(PixelY(6), Pixel7(0)))
      + RenderLine(Field(PixelX(7), Pixel7(0)))
      + RenderLine(Field(PixelY(7), Pixel7(0)))
      + RenderLine(Field(PixelX(8), Pixel7(0)))
      + RenderLine(Field(PixelY(8), Pixel7(0)))
      + RenderLine(Field(PixelX(9), Pixel7(0)))
      + RenderLine(Field(PixelY(9), Pixel7(0)))
      + RenderLine(Field(Lat(1), Degrees7(b.latMax)))
      + RenderLine(Field(Lon(1), Degrees7(b.lonMin)))
      + RenderLine(Field(Lat(2), Degrees7(b.latMax)))
      + RenderLine(Field(Lon(2), Degrees7(b.lonMax)))
      + RenderLine(Field(Lat(3), Degrees7(b.latMin)))
      + RenderLine(Field(Lon(3), Degrees7(b.lonMax)))
      + RenderLine(Field(Lat(4), Degrees7(b.latMin)))
      + RenderLine(Field(Lon(4), Degrees7(b.lonMin)))
  {
    var c := Calibration(mapName, width, height, b, scale);
    var lines: seq<CalLine> := [Comment("Calibration File for QV Map")];
    assert lines[..0] == [];
    RenderSnoc(lines, Comment("generated by " + title));
    lines := lines + [Comment("generated by " + title)];
    RenderSnoc(lines, Field(Name, Text10(c.name)));
    lines := lines + [Field(Name, Text10(c.name))];
    RenderSnoc(lines, Field(FName, Text10(c.fname)));
    lines := lines + [Field(FName, Text10(c.fname))];
    RenderSnoc(lines, Field(Nord, Degrees6(c.nord)));
    lines := lines + [Field(Nord, Degrees6(c.nord))];
    RenderSnoc(lines, Field(Sued, Degrees6(c.sued)));
    lines := lines + [Field(Sued, Degrees6(c.sued))];
    RenderSnoc(lines, Field(Ost, Degrees6(c.ost)));
    lines := lines + [Field(Ost, Degrees6(c.ost))];
    RenderSnoc(lines, Field(West, Degrees6(c.west)));
    lines := lines + [Field(West, Degrees6(c.west))];
    RenderSnoc(lines, Field(ScaleArea, Scale6(c.scale)));
    lines := lines + [Field(ScaleArea, Scale6(c.scale))];
    RenderSnoc(lines, Field(ProjMode, Text10("proj")));
    lines := lines + [Field(ProjMode, Text10("proj"))];
    RenderSnoc(lines, Field(ProjParams, Text10("proj=merc")));
    lines := lines + [Field(ProjParams, Text10("proj=merc"))];
    RenderSnoc(lines, Field(Datum1, Text10("WGS 84# 6378137# 298.257223563# 0# 0# 0#")));
    lines := lines + [Field(Datum1, Text10("WGS 84# 6378137# 298.257223563# 0# 0# 0#"))];
    RenderSnoc(lines, Field(PixelX(1), Pixel7(c.pixelCorners[0].x)));
    lines := lines + [Field(PixelX(1), Pixel7(c.pixelCorners[0].x))];
    RenderSnoc(lines, Field(PixelY(1), Pixel7(c.pixelCorners[0].y)));
    lines := lines + [Field(PixelY(1), Pixel7(c.pixelCorners[0].y))];
    RenderSnoc(lines, Field(PixelX(2), Pixel7(c.pixelCorners[1].x)));
    lines := lines + [Field(PixelX(2), Pixel7(c.pixelCorners[1].x))];
    RenderSnoc(lines, Field(PixelY(2), Pixel7(c.pixelCorners[1].y)));
    lines := lines + [Field(PixelY(2), Pixel7(c.pixelCorners[1].y))];
    RenderSnoc(lines, Field(PixelX(3), Pixel7(c.pixelCorners[2].x)));
    lines := lines + [Field(PixelX(3), Pixel7(c.pixelCorners[2].x))];
    RenderSnoc(lines, Field(PixelY(3), Pixel7(c.pixelCorners[2].y)));
    lines := lines + [Field(PixelY(3), Pixel7(c.pixelCorners[2].y))];
    RenderSnoc(lines, Field(PixelX(4), Pixel7(c.pixelCorners[3].x)));
    lines := lines + [Field(PixelX(4), Pixel7(c.pixelCorners[3].x))];
    RenderSnoc(lines, Field(PixelY(4), Pixel7(c.pixelCorners[3].y)));
    lines := lines + [Field(PixelY(4), Pixel7(c.pixelCorners[3].y))];
    RenderSnoc(lines, Field(PixelX(5), Pixel7(c.pixelCorners[4].x)));
    lines := lines + [Field(PixelX(5), Pixel7(c.pixelCorners[4].x))];
    RenderSnoc(lines, Field(PixelY(5), Pixel7(c.pixelCorners[4].y)));
    lines := lines + [Field(PixelY(5), Pixel7(c.pixelCorners[4].y))];
    RenderSnoc(lines, Field(PixelX(6), Pixel7(c.pixelCorners[5].x)));
    lines := lines + [Field(PixelX(6), Pixel7(c.pixelCorners[5].x))];
    RenderSnoc(lines, Field(PixelY(6), Pixel7(c.pixelCorners[5].y)));
    lines := lines + [Field(PixelY(6), Pixel7(c.pixelCorners[5].y))];
    RenderSnoc(lines, Field(PixelX(7), Pixel7(c.pixelCorners[6].x)));
    lines := lines + [Field(PixelX(7), Pixel7(c.pixelCorners[6].x))];
    RenderSnoc(lines, Field(PixelY(7), Pixel7(c.pixelCorners[6].y)));
    lines := lines + [Field(PixelY(7), Pixel7(c.pixelCorners[6].y))];
    RenderSnoc(lines, Field(PixelX(8), Pixel7(c.pixelCorners[7].x)));
    lines := lines + [Field(PixelX(8), Pixel7(c.pixelCorners[7].x))];
    RenderSnoc(lines, Field(PixelY(8), Pixel7(c.pixelCorners[7].y)));
    lines := lines + [Field(PixelY(8), Pixel7(c.pixelCorners[7].y))];
    RenderSnoc(lines, Field(PixelX(9), Pixel7(c.pixelCorners[8].x)));
    lines := lines + [Field(PixelX(9), Pixel7(c.pixelCorners[8].x))];
    RenderSnoc(lines, Field(PixelY(9), Pixel7(c.pixelCorners[8].y)));
    lines := lines + [Field(PixelY(9), Pixel7(c.pixelCorners[8].y))];
    RenderSnoc(lines, Field(Lat(1), Degrees7(c.geoCorners[0].lat)));
    lines := lines + [Field(Lat(1), Degrees7(c.geoCorners[0].lat))];
    RenderSnoc(lines, Field(Lon(1), Degrees7(c.geoCorners[0].lon)));
    lines := lines + [Field(Lon(1), Degrees7(c.geoCorners[0].lon))];
    RenderSnoc(lines, Field(Lat(2), Degrees7(c.geoCorners[1].lat)));
    lines := lines + [Field(Lat(2), Degrees7(c.geoCorners[1].lat))];
    RenderSnoc(lines, Field(Lon(2), Degrees7(c.geoCorners[1].lon)));
    lines := lines + [Field(Lon(2), Degrees7(c.geoCorners[1].lon))];
    RenderSnoc(lines, Field(Lat(3), Degrees7(c.geoCorners[2].lat)));
    lines := lines + [Field(Lat(3), Degrees7(c.geoCorners[2].lat))];
    RenderSnoc(lines, Field(Lon(3), Degrees7(c.geoCorners[2].lon)));
    lines := lines + [Field(Lon(3), Degrees7(c.geoCorners[2].lon))];
    RenderSnoc(lines, Field(Lat(4), Degrees7(c.geoCorners[3].lat)));
    lines := lines + [Field(Lat(4), Degrees7(c.geoCorners[3].lat))];
    RenderSnoc(lines, Field(Lon(4), Degrees7(c.geoCorners[3].lon)));
    lines := lines + [Field(Lon(4), Degrees7(c.geoCorners[3].lon))];
  }

  /**
   * The values writeCalFile computes for a map: the image is named after the map, the bounds are
   * projected from the edge pixels of the tile rectangle (longitudeMin from xMin * tileSize,
   * longitudeMax from (xMax + 1) * tileSize, latitudeMin from (yMax + 1) * tileSize, latitudeMax
   * from yMin * tileSize), the printed scale is kept, and the pixel corners span the
   * (xMax - xMin + 1) * tileSize by (yMax - yMin + 1) * tileSize image.
   */
  lemma MapCalibrationSpec(m: MapDef, mapName: string, lonOf: int -> Degrees, latOf: int -> Degrees, scale: string)
    ensures var c := MapCalibration(m, mapName, lonOf, latOf, scale);
      && WellFormed(c)
      && c.name == mapName + ".png" && c.fname == c.name && c.scale == scale
      && c.west == lonOf(m.xMin * TileSize(m)) && c.ost == lonOf((m.xMax + 1) * TileSize(m))
      && c.sued == latOf((m.yMax + 1) * TileSize(m)) && c.nord == latOf(m.yMin * TileSize(m))
      && c.pixelCorners[2] == PixelPoint(MapWidth(m) - 1, MapHeight(m) - 1)
  {
    var p := BoundPixels(m);
    assert p.lonMaxX == (m.xMax + 1) * TileSize(m) && p.latMinY == (m.yMax + 1) * TileSize(m);
  }

  /** The Touratech QV creator and the OruxMaps creator give a map the same four bounds. */
  lemma BoundsAgreeWithOruxMaps(m: MapDef, qvName: string, oruxName: string,
                                lonOf: int -> Degrees, latOf: int -> Degrees, scale: string)
    ensures var c := MapCalibration(m, qvName, lonOf, latOf, scale);
      var b := OruxMaps.Calibrate(m, oruxName, lonOf, latOf).bounds;
      c.nord == b.latMax && c.sued == b.latMin && c.ost == b.lonMax && c.west == b.lonMin
  {
  }

  /** The pixel pinned by corner n is a corner pixel of the image, on the sides its geographic
      position says: left column exactly when west, right column exactly when east, top row
      exactly when north, bottom row exactly when south. */
  predicate CornerAgrees(c: QvCalibration, width: int, height: int, n: int)
    requires WellFormed(c) && 0 <= n < 4
  {
    var p, g := c.pixelCorners[n], c.geoCorners[n];
    && (p.x == 0 || p.x == width - 1) && (p.y == 0 || p.y == height - 1)
    && (p.x == 0 <==> g.lon == c.west) && (p.x == width - 1 <==> g.lon == c.ost)
    && (p.y == 0 <==> g.lat == c.nord) && (p.y == height - 1 <==> g.lat == c.sued)
  }

  /**
   * The four used corners go clockwise from the north-west corner of the map and pin four
   * distinct image corners to the matching geographic corners, for an image wider and taller
   * than one pixel whose bounds are distinct; corners five to nine are left at pixel (0, 0).
   */
  lemma CornersAgree(mapName: string, width: int, height: int, b: GeoBounds, scale: string)
    requires width > 1 && height > 1 && b.lonMin != b.lonMax && b.latMin != b.latMax
    ensures var c := Calibration(mapName, width, height, b, scale);
      && WellFormed(c)
      && c.geoCorners == [GeoPoint(c.nord, c.west), GeoPoint(c.nord, c.ost), GeoPoint(c.sued, c.ost), GeoPoint(c.sued, c.west)]
      && (forall n :: 0 <= n < 4 ==> CornerAgrees(c, width, height, n))
      && (forall i, j :: 0 <= i < j < 4 ==> c.pixelCorners[i] != c.pixelCorners[j])
      && (forall n :: 4 <= n < 9 ==> c.pixelCorners[n] == PixelPoint(0, 0))
  {
    var c := Calibration(mapName, width, height, b, scale);
    assert CornerAgrees(c, width, height, 0);
    assert CornerAgrees(c, width, height, 1);
    assert CornerAgrees(c, width, height, 2);
    assert CornerAgrees(c, width, height, 3);
  }

  /** An IOException from mkDir is wrapped, without a message, into a MapCreationException. */
  function MkDirFailure(m: MapDef, e: Exception): Exception
  {
    if e.IOException? then MapCreationException(None, m, e) else e
  }

  /** writeCalFile wraps an IOException with "Error writing cal file: " and its message. */
  function CalWriteFailure(m: MapDef, e: Exception): Exception
  {
    if e.IOException? then MapCreationException(Some("Error writing cal file: " + e.message), m, e) else e
  }

  /** The outcome of createMap: mkDir, createTiles and writeCalFile in order, stopping at the first
      that throws. */
  function CreateMapOutcome(m: MapDef, mkDir: Step, createTiles: Step, writeCal: Step): Result<(), Exception>
  {
    if mkDir.Throws? then Err(MkDirFailure(m, mkDir.exception))
    else if createTiles.Throws? then Err(createTiles.exception)
    else if writeCal.Throws? then Err(CalWriteFailure(m, writeCal.exception))
    else Ok(())
  }

  /**
   * createMap succeeds exactly when all three steps complete. Otherwise its exception comes from
   * the first step that throws: an IOException from mkDir or from the calibration write is
   * wrapped into a MapCreationException naming the map, with the cal-file message exactly when
   * the write threw it; whatever createTiles throws, an interruption included, and any other
   * exception propagate unchanged.
   */
  lemma CreateMapOutcomeSpec(m: MapDef, mkDir: Step, createTiles: Step, writeCal: Step)
    ensures var r := CreateMapOutcome(m, mkDir, createTiles, writeCal);
      var f := FirstFailure([mkDir, createTiles, writeCal]);
      && (r.Ok? <==> f.None?)
      && ((mkDir.Throws? || (createTiles.Done? && writeCal.Throws?)) && f.value.IOException? ==>
            r.error.MapCreationException? && r.error.failedMap == m && r.error.cause == f.value
            && r.error.detail == (if mkDir.Done? then Some("Error writing cal file: " + f.value.message) else None))
      && (mkDir.Done? && createTiles.Throws? ==> r == Err(createTiles.exception))
      && (r.Err? && !f.value.IOException? ==> r.error == f.value)
  {
    StepsOfThree(mkDir, createTiles, writeCal);
  }

  /** The file-system actions of createMap: the layer directory, the tiles, the calibration file,
      each only once the previous step completed. */
  function CreateMapEffects(layerDir: Path, mapName: string, doc: string,
                            mkDir: Step, createTiles: Step, writeCal: Step): seq<Action>
  {
    if mkDir.Throws? then []
    else if createTiles.Throws? then [MkDir(layerDir)]
    else if writeCal.Throws? then [MkDir(layerDir), TilesCreated(layerDir)]
    else [MkDir(layerDir), TilesCreated(layerDir), WriteText(CalFile(layerDir, mapName), doc)]
  }

  /** The actions are the first k of directory, tiles and calibration file, where k is the number
      of steps that complete before one throws; all three happen exactly when createMap succeeds. */
  lemma CreateMapEffectsShape(m: MapDef, layerDir: Path, mapName: string, doc: string,
                              mkDir: Step, createTiles: Step, writeCal: Step)
    ensures var k := LeadingDone([mkDir, createTiles, writeCal]);
      && k <= 3
      && CreateMapEffects(layerDir, mapName, doc, mkDir, createTiles, writeCal) ==
           [MkDir(layerDir), TilesCreated(layerDir), WriteText(CalFile(layerDir, mapName), doc)][..k]
      && (k == 3 <==> CreateMapOutcome(m, mkDir, createTiles, writeCal).Ok?)
  {
    var full := [MkDir(layerDir), TilesCreated(layerDir), WriteText(CalFile(layerDir, mapName), doc)];
    StepsOfThree(mkDir, createTiles, writeCal);
    assert full[..0] == [] && full[..1] == [MkDir(layerDir)] && full[..2] == [MkDir(layerDir), TilesCreated(layerDir)];
    assert full[..3] == full;
  }

  /** The Touratech QV atlas creator; its map, directory and map name come from the Ozi creator
      it extends. */
  class TtqvCreator {
    /** The program's full title, written into the file header. */
    const title: string
    var currentMap: Option<MapDef>
    var layerDir: Option<Path>
    var mapName: Option<string>
    /** The file-system actions performed so far, in order. */
    var effects: seq<Action>

    constructor(title: string)
      ensures this.title == title && currentMap == None && layerDir == None && mapName == None
      ensures effects == []
    {
      this.title := title;
      currentMap := None;
      layerDir := None;
      mapName := None;
      effects := [];
    }

    /** initializeMap: delegates to the Ozi creator, which records the map, its directory and its
        name. */
    method InitializeMap(m: MapDef, dir: Path, name: string)
      modifies this`currentMap, this`layerDir, this`mapName
      ensures currentMap == Some(m) && layerDir == Some(dir) && mapName == Some(name)
    {
      currentMap := Some(m);
      layerDir := Some(dir);
      mapName := Some(name);
    }

    /** writeCalFile: writes "<map>_png.cal" into the layer directory; write is the outcome of
        opening and writing the file, scaleArea the printed scale and doc the text it writes. */
    method WriteCalFile(write: Step, lonOf: int -> Degrees, latOf: int -> Degrees, scaleArea: string, ghost doc: string)
      returns (failure: Option<Exception>)
      requires currentMap.Some? && layerDir.Some? && mapName.Some?
      requires doc == CalText(title, MapCalibration(currentMap.value, mapName.value, lonOf, latOf, scaleArea))
      modifies this`effects
      ensures failure == if write.Throws? then Some(CalWriteFailure(currentMap.value, write.exception)) else None
      ensures effects == old(effects) + if write.Throws? then [] else [WriteText(CalFile(layerDir.value, mapName.value), doc)]
    {
      var m := currentMap.value;
      if write.Throws? {
        return Some(CalWriteFailure(m, write.exception));
      }
      var text := CalFileText(lonOf, latOf, scaleArea);
      effects := effects + [WriteText(CalFile(layerDir.value, mapName.value), text)];
      failure := None;
    }

    /** The text writeCalFile writes, one write per line. */
    method CalFileText(lonOf: int -> Degrees, latOf: int -> Degrees, scaleArea: string) returns (out: string)
      requires currentMap.Some? && mapName.Some?
      ensures out == CalText(title, MapCalibration(currentMap.value, mapName.value, lonOf, latOf, scaleArea))
    {
      var m := currentMap.value;
      var name := mapName.value;
      var tileSize := TileSize(m);
      var longitudeMin := lonOf(m.xMin * tileSize);
      var longitudeMax := lonOf((m.xMax + 1) * tileSize);
      var latitudeMin := latOf((m.yMax + 1) * tileSize);
      var latitudeMax := latOf(m.yMin * tileSize);
      var width := (m.xMax - m.xMin + 1) * tileSize;
      var height := (m.yMax - m.yMin + 1) * tileSize;
      ghost var b := GeoBounds(longitudeMin, longitudeMax, latitudeMin, latitudeMax);
      MapCalibrationSpec(m, name, lonOf, latOf, scaleArea);
      assert MapCalibration(m, name, lonOf, latOf, scaleArea) == Calibration(name, width, height, b, scaleArea);
      var mapName := name;
      var title := this.title;
      out := "";
      out := out + RenderLine(Comment("Calibration File for QV Map"));
      out := out + RenderLine(Comment("generated by " + title));
      out := out + RenderLine(Field(Name, Text10(mapName + ".png")));
      out := out + RenderLine(Field(FName, Text10(mapName + ".png")));
      out := out + RenderLine(Field(Nord, Degrees6(latitudeMax)));
      out := out + RenderLine(Field(Sued, Degrees6(latitudeMin)));
      out := out + RenderLine(Field(Ost, Degrees6(longitudeMax)));
      out := out + RenderLine(Field(West, Degrees6(longitudeMin)));
      out := out + RenderLine(Field(ScaleArea, Scale6(scaleArea)));
      out := out + RenderLine(Field(ProjMode, Text10("proj")));
      out := out + RenderLine(Field(ProjParams, Text10("proj=merc")));
      out := out + RenderLine(Field(Datum1, Text10("WGS 84# 6378137# 298.257223563# 0# 0# 0#")));
      out := out + RenderLine(Field(PixelX(1), Pixel7(0)));
      out := out + RenderLine(Field(PixelY(1), Pixel7(0)));
      out := out + RenderLine(Field(PixelX(2), Pixel7(width - 1)));
      out := out + RenderLine(Field(PixelY(2), Pixel7(0)));
      out := out + RenderLine(Field(PixelX(3), Pixel7(width - 1)));
      out := out + RenderLine(Field(PixelY(3), Pixel7(height - 1)));
      out := out + RenderLine(Field(PixelX(4), Pixel7(0)));
      out := out + RenderLine(Field(PixelY(4), Pixel7(height - 1)));
      out := out + RenderLine(Field(PixelX(5), Pixel7(0)));
      out := out + RenderLine(Field(PixelY(5), Pixel7(0)));
      out := out + RenderLine(Field(PixelX(6), Pixel7(0)));
      out := out + RenderLine(Field(PixelY(6), Pixel7(0)));
      out := out + RenderLine(Field(PixelX(7), Pixel7(0)));
      out := out + RenderLine(Field(PixelY(7), Pixel7(0)));
      out := out + RenderLine(Field(PixelX(8), Pixel7(0)));
      out := out + RenderLine(Field(PixelY(8), Pixel7(0)));
      out := out + RenderLine(Field(PixelX(9), Pixel7(0)));
      out := out + RenderLine(Field(PixelY(9), Pixel7(0)));
      out := out + RenderLine(Field(Lat(1), Degrees7(latitudeMax)));
      out := out + RenderLine(Field(Lon(1), Degrees7(longitudeMin)));
      out := out + RenderLine(Field(Lat(2), Degrees7(latitudeMax)));
      out := out + RenderLine(Field(Lon(2), Degrees7(longitudeMax)));
      out := out + RenderLine(Field(Lat(3), Degrees7(latitudeMin)));
      out := out + RenderLine(Field(Lon(3), Degrees7(longitudeMax)));
      out := out + RenderLine(Field(Lat(4), Degrees7(latitudeMin)));
      out := out + RenderLine(Field(Lon(4), Degrees7(longitudeMin)));
      CalTextAppends(title, name, width, height, b, scaleArea);
    }

    /**
     * createMap: makes the layer directory, has the tiles built into it (the Ozi creator's
     * createTiles, which throws MapCreationException or InterruptedException) and writes the
     * calibration file.
     */
    method CreateMap(mkDir: Step, createTiles: Step, writeCal: Step,
                     lonOf: int -> Degrees, latOf: int -> Degrees, scaleArea: string) returns (r: Result<(), Exception>)
      requires currentMap.Some? && layerDir.Some? && mapName.Some?
      modifies this`effects
      ensures r == CreateMapOutcome(currentMap.value, mkDir, createTiles, writeCal)
      ensures effects == old(effects) + CreateMapEffects(layerDir.value, mapName.value,
        CalText(title, MapCalibration(currentMap.value, mapName.value, lonOf, latOf, scaleArea)),
        mkDir, createTiles, writeCal)
    {
      var m := currentMap.value;
      ghost var doc := CalText(title, MapCalibration(m, mapName.value, lonOf, latOf, scaleArea));
      ghost var expected := CreateMapEffects(layerDir.value, mapName.value, doc, mkDir, createTiles, writeCal);
      if mkDir.Throws? {
        assert expected == [];
        return Err(MkDirFailure(m, mkDir.exception));
      }
      effects := effects + [MkDir(layerDir.value)];
      if createTiles.Throws? {
        assert expected == [MkDir(layerDir.value)];
        return Err(createTiles.exception);
      }
      effects := effects + [TilesCreated(layerDir.value)];
      var failure := WriteCalFile(writeCal, lonOf, latOf, scaleArea, doc);
      if failure.Some? {
        return Err(failure.value);
      }
      r := Ok(());
    }
  }
}
