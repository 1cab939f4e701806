/**
 * The OruxMaps atlas creator: each layer becomes a directory holding one sub-directory per map
 * ("<layer> <zoom>"), each with an XML calibration document and a "set" directory of 512-pixel
 * tiles named "<map>_<x>_<y>.omc2". Floating-point values (the projected bounds) are inputs.
 */
module OruxMaps {
  import opened Wrappers
  import opened AtlasModel
  import opened Text
  import XmlEscape

  /** The suffix of every OruxMaps calibration document. */
  const ORUXMAPS_EXT: string := ".otrk2.xml"

  /** The side in pixels of every tile OruxMaps reads. */
  const TILE_SIZE: int := 512

  /** The name of a map: the layer name, a space, and the zoom padded to two digits. */
  function MapName(layerName: string, zoom: int): (n: string)
    ensures |n| >= |layerName| + 3
    ensures n[..|layerName| + 1] == layerName + " "
    ensures ParseInt(n[|layerName| + 1..]) == zoom
  {
    var n := layerName + " " + ZeroPad2(zoom);
    assert n[|layerName| + 1..] == ZeroPad2(zoom);
    ZeroPad2IsIntText(zoom);
    ParseIntOfZeroPad2(zoom);
    n
  }

  /** Two maps of one layer get the same name only when they share a zoom. */
  lemma MapNameInjective(layerName: string, z1: int, z2: int)
    ensures MapName(layerName, z1) == MapName(layerName, z2) ==> z1 == z2
  {
  }

  /** The file of a tile: the map name, the tile column and row, each after an underscore, and ".omc2". */
  function TileFileName(mapName: string, x: int, y: int): string
  {
    mapName + "_" + IntToString(x) + "_" + IntToString(y) + ".omc2"
  }

  /** A tile file name starts with the map name and an underscore and ends in ".omc2". */
  lemma TileFileNameShape(mapName: string, x: int, y: int)
    ensures var f := TileFileName(mapName, x, y);
      |f| > |mapName| + 5 && f[..|mapName| + 1] == mapName + "_" && f[|f| - 5..] == ".omc2"
  {
    var f := TileFileName(mapName, x, y);
    TileFileNameParts(mapName, x, y);
    assert f[..|mapName| + 1] == mapName + "_";
  }

  lemma IntToStringHasNoUnderscore(i: int)
    ensures '_' !in IntToString(i)
  {
    var s := IntToString(i);
    IntToStringIsIntText(i);
    if i >= 0 {
      NatToStringDigits(i);
      assert AllDigits(s);
    } else {
      assert AllDigits(s[1..]);
      assert forall k :: 1 <= k < |s| ==> s[k] == s[1..][k - 1];
    }
  }

  /** Splitting "a_b" where a has no underscore is unique. */
  lemma SplitAtFirstUnderscore(a: string, b: string, c: string, d: string)
    requires '_' !in a && '_' !in c
    requires a + "_" + b == c + "_" + d
    ensures a == c && b == d
  {
    var s := a + "_" + b;
    assert s[|a|] == '_';
    assert (c + "_" + d)[|c|] == '_';
    assert forall k :: 0 <= k < |a| ==> s[k] == a[k];
    assert forall k :: 0 <= k < |c| ==> (c + "_" + d)[k] == c[k];
    assert |a| == |c|;
    assert a == s[..|a|] && c == (c + "_" + d)[..|c|];
    assert b == s[|a| + 1..] && d == (c + "_" + d)[|c| + 1..];
  }

  /** Equal strings with a common prefix and suffix have equal middles. */
  lemma Infix(p: string, m1: string, m2: string, q: string)
    requires p + m1 + q == p + m2 + q
    ensures m1 == m2
  {
    assert m1 == (p + m1 + q)[|p|..|p| + |m1|];
    assert m2 == (p + m2 + q)[|p|..|p| + |m2|];
  }

  lemma TileFileNameParts(mapName: string, x: int, y: int)
    ensures TileFileName(mapName, x, y) == (mapName + "_") + (IntToString(x) + "_" + IntToString(y)) + ".omc2"
  {
  }

  /** Distinct tiles of one map are written to distinct files. */
  lemma TileFileNameInjective(mapName: string, x1: int, y1: int, x2: int, y2: int)
    requires TileFileName(mapName, x1, y1) == TileFileName(mapName, x2, y2)
    ensures x1 == x2 && y1 == y2
  {
    var m1 := IntToString(x1) + "_" + IntToString(y1);
    var m2 := IntToString(x2) + "_" + IntToString(y2);
    TileFileNameParts(mapName, x1, y1);
    TileFileNameParts(mapName, x2, y2);
    Infix(mapName + "_", m1, m2, ".omc2");
    IntToStringHasNoUnderscore(x1);
    IntToStringHasNoUnderscore(x2);
    SplitAtFirstUnderscore(IntToString(x1), IntToString(y1), IntToString(x2), IntToString(y2));
    IntToStringInjective(x1, x2);
    IntToStringInjective(y1, y2);
  }

  /** Maps i < j of one layer share a zoom level. */
  predicate SameZoomAt(maps: seq<MapDef>, i: int, j: int)
  {
    0 <= i < j < |maps| && maps[i].zoom == maps[j].zoom
  }

  predicate HasDuplicateZoom(maps: seq<MapDef>)
  {
    exists i, j :: 0 <= i < j < |maps| && SameZoomAt(maps, i, j)
  }

  function ZoomSet(maps: seq<MapDef>): set<int>
  {
    if maps == [] then {} else ZoomSet(maps[..|maps| - 1]) + {maps[|maps| - 1].zoom}
  }

  lemma {:induction false} ZoomSetMembers(maps: seq<MapDef>)
    ensures forall z :: z in ZoomSet(maps) <==> exists i :: 0 <= i < |maps| && maps[i].zoom == z
    ensures |ZoomSet(maps)| <= |maps|
    decreases |maps|
  {
    if maps != [] {
      var p := maps[..|maps| - 1];
      ZoomSetMembers(p);
      assert forall i :: 0 <= i < |p| ==> p[i] == maps[i];
    }
  }

  /** A layer passes the duplicate-zoom check exactly when its maps have pairwise distinct zoom
      levels, that is, as many zoom levels as maps. */
  lemma {:induction false} NoDuplicateIffDistinctZooms(maps: seq<MapDef>)
    ensures !HasDuplicateZoom(maps) <==> |ZoomSet(maps)| == |maps|
    decreases |maps|
  {
    ZoomSetMembers(maps);
    if maps != [] {
      var n := |maps| - 1;
      var p := maps[..n];
      NoDuplicateIffDistinctZooms(p);
      ZoomSetMembers(p);
      assert forall i :: 0 <= i < |p| ==> p[i] == maps[i];
      if HasDuplicateZoom(maps) {
        var i, j :| 0 <= i < j < |maps| && SameZoomAt(maps, i, j);
        if j == n {
          assert p[i].zoom == maps[n].zoom;
          assert maps[n].zoom in ZoomSet(p);
        } else {
          assert p[i] == maps[i] && p[j] == maps[j];
          assert SameZoomAt(p, i, j);
        }
      } else {
        assert !HasDuplicateZoom(p) by {
          if HasDuplicateZoom(p) {
            var i, j :| 0 <= i < j < |p| && SameZoomAt(p, i, j);
            assert SameZoomAt(maps, i, j);
          }
        }
        assert maps[n].zoom !in ZoomSet(p) by {
          if maps[n].zoom in ZoomSet(p) {
            var i :| 0 <= i < |p| && p[i].zoom == maps[n].zoom;
            assert SameZoomAt(maps, i, n);
          }
        }
      }
    }
  }

  /** The directory of a map: atlasDir / layerName / mapName. */
  function MapDir(atlasDir: Path, layerName: string, zoom: int): Path
  {
    Child(Child(atlasDir, layerName), MapName(layerName, zoom))
  }

  /** A layer that passes the duplicate-zoom check gives every map its own directory, so no map's
      calibration file or tiles can overwrite another's. */
  lemma PassingLayerHasDistinctMapDirs(atlasDir: Path, layer: Layer, i: int, j: int)
    requires !HasDuplicateZoom(layer.maps)
    requires 0 <= i < j < |layer.maps|
    ensures MapDir(atlasDir, layer.name, layer.maps[i].zoom) != MapDir(atlasDir, layer.name, layer.maps[j].zoom)
  {
    assert !SameZoomAt(layer.maps, i, j);
    var d := Child(atlasDir, layer.name);
    var ni, nj := MapName(layer.name, layer.maps[i].zoom), MapName(layer.name, layer.maps[j].zoom);
    MapNameInjective(layer.name, layer.maps[i].zoom, layer.maps[j].zoom);
    assert Child(d, ni).segments[|d.segments|] == ni;
    assert Child(d, nj).segments[|d.segments|] == nj;
  }

  /** The number of 512-pixel chunks of a size, by rounding up in Java's truncating division. */
  function ChunkCount(pixels: int): int
  {
    JavaDiv(pixels + TILE_SIZE - 1, TILE_SIZE)
  }

  /** For a non-negative size, the chunk count is the least number of 512-pixel chunks covering it. */
  lemma ChunkCountCovers(pixels: int)
    requires pixels >= 0
    ensures ChunkCount(pixels) >= 0
    ensures ChunkCount(pixels) * TILE_SIZE >= pixels
    ensures (ChunkCount(pixels) - 1) * TILE_SIZE < pixels
  {
  }

  /** initializeMap: tiles are always 512 x 512; the user's format is kept, JPEG90 when none. */
  function ForcedParameters(p: Option<TileImageParameters>): (q: TileImageParameters)
    ensures q.width == TILE_SIZE && q.height == TILE_SIZE
    ensures p.None? ==> q.format == JPEG90
    ensures p.Some? ==> q.format == p.value.format
  {
    if p.None? then TileImageParameters(TILE_SIZE, TILE_SIZE, JPEG90)
    else TileImageParameters(TILE_SIZE, TILE_SIZE, p.value.format)
  }

  /** A corner point of the calibration document. */
  datatype CalPoint = CalPoint(corner: string, lon: Degrees, lat: Degrees)

  /** The four corners, in the order written: top-left, bottom-right, top-right, bottom-left. */
  function CalibrationPoints(b: GeoBounds): seq<CalPoint>
  {
    [CalPoint("TL", b.lonMin, b.latMax), CalPoint("BR", b.lonMax, b.latMin),
     CalPoint("TR", b.lonMax, b.latMax), CalPoint("BL", b.lonMin, b.latMin)]
  }

  /** A top corner carries latitudeMax and a bottom one latitudeMin; a left corner carries
      longitudeMin and a right one longitudeMax. */
  lemma CalibrationPointsCorners(b: GeoBounds)
    ensures var pts := CalibrationPoints(b);
      && |pts| == 4
      && [pts[0].corner, pts[1].corner, pts[2].corner, pts[3].corner] == ["TL", "BR", "TR", "BL"]
      && forall k :: 0 <= k < 4 ==>
           |pts[k].corner| == 2 &&
           pts[k].lat == (if pts[k].corner[0] == 'T' then b.latMax else b.latMin) &&
           pts[k].lon == (if pts[k].corner[1] == 'L' then b.lonMin else b.lonMax)
  {
  }

  /** The values of a per-map calibration document that are not fixed text. */
  datatype Otrk2Map = Otrk2Map(
    layerLevel: int, mapName: string, fileName: string,
    chunksX: int, chunksY: int, width: int, height: int,
    bounds: GeoBounds)

  /** The document's values for a map named mapName, given the projection at the map's zoom. */
  function Calibrate(m: MapDef, mapName: string, lonOf: int -> Degrees, latOf: int -> Degrees): Otrk2Map
  {
    Otrk2Map(m.zoom, mapName, XmlEscape.EscapeOnce(mapName),
      ChunkCount(MapWidth(m)), ChunkCount(MapHeight(m)), MapWidth(m), MapHeight(m),
      Project(BoundPixels(m), lonOf, latOf))
  }

  /**
   * The values prepareOtrk2File writes: layerLevel is the zoom, file_name is the map name
   * escaped for an XML attribute (no raw markup, unescaping gives the name back), and the sizes
   * are the map's pixel sizes with their 512-pixel chunk counts.
   */
  lemma CalibrateSpec(m: MapDef, mapName: string, lonOf: int -> Degrees, latOf: int -> Degrees)
    ensures var c := Calibrate(m, mapName, lonOf, latOf);
      && c.layerLevel == m.zoom && c.mapName == mapName
      && XmlEscape.NoMarkup(c.fileName) && XmlEscape.Unescape(c.fileName) == mapName
      && c.width == MapWidth(m) && c.height == MapHeight(m)
      && c.chunksX == ChunkCount(c.width) && c.chunksY == ChunkCount(c.height)
  {
    XmlEscape.EscapeOnceNoMarkup(mapName);
    XmlEscape.UnescapeEscapeOnce(mapName);
  }

  /** Each bound is projected from its edge pixel: longitudeMin from xMin * tileSize,
      longitudeMax from (xMax + 1) * tileSize, latitudeMin from (yMax + 1) * tileSize and
      latitudeMax from yMin * tileSize. */
  lemma CalibrateBounds(m: MapDef, mapName: string, lonOf: int -> Degrees, latOf: int -> Degrees)
    ensures var b := Calibrate(m, mapName, lonOf, latOf).bounds;
      && b.lonMin == lonOf(m.xMin * TileSize(m)) && b.lonMax == lonOf((m.xMax + 1) * TileSize(m))
      && b.latMin == latOf((m.yMax + 1) * TileSize(m)) && b.latMax == latOf(m.yMin * TileSize(m))
  {
    var p := BoundPixels(m);
    assert p.lonMaxX == (m.xMax + 1) * TileSize(m) && p.latMinY == (m.yMax + 1) * TileSize(m);
  }

  function Quote(s: string): string { "\"" + s + "\"" }

  /** One line of an OruxMaps calibration document, by kind. */
  datatype Otrk2Line =
    | XmlDeclaration
    | TrackerOpen(versionCode: string)
    | CalibrationOpen(layers: bool, layerLevel: int)
    | MapNameLine(name: string)
    | MapChunks(chunksX: int, chunksY: int, fileName: string)
    | MapDimensions(height: int, width: int)
    | MapBounds(latMin: Degrees, latMax: Degrees, lonMin: Degrees, lonMax: Degrees)
    | PointsOpen
    | Point(point: CalPoint)
    | PointsClose
    | CalibrationClose
    | TrackerClose

  /** The text of one line, newline included. */
  function RenderLine(l: Otrk2Line): string
  {
    match l
    case XmlDeclaration => "<?xml version=\"1.0\" encoding=\"UTF-8\"?>\n"
    case TrackerOpen(v) =>
      "<OruxTracker xmlns=\"http://oruxtracker.com/app/res/calibration\"\n versionCode=" + Quote(v) + ">\n"
    case CalibrationOpen(layers, level) =>
      "<MapCalibration layers=" + Quote(if layers then "true" else "false")
      + " layerLevel=" + Quote(IntToString(level)) + ">\n"
    case MapNameLine(n) => "<MapName><![CDATA[" + n + "]]></MapName>\n"
    case MapChunks(x, y, f) =>
      "<MapChunks xMax=" + Quote(IntToString(x)) + " yMax=" + Quote(IntToString(y))
      + " datum=\"WGS84\" projection=\"Mercator\" img_height=" + Quote(IntToString(TILE_SIZE))
      + " img_width=" + Quote(IntToString(TILE_SIZE)) + " file_name=" + Quote(f) + " />\n"
    case MapDimensions(h, w) => "<MapDimensions height=" + Quote(IntToString(h)) + " width=" + Quote(IntToString(w)) + " />\n"
    case MapBounds(latMin, latMax, lonMin, lonMax) =>
      "<MapBounds minLat=" + Quote(latMin.plain) + " maxLat=" + Quote(latMax.plain)
      + " minLon=" + Quote(lonMin.plain) + " maxLon=" + Quote(lonMax.plain) + " />\n"
    case PointsOpen => "<CalibrationPoints>\n"
    // a corner point prints both coordinates in the six-decimal English rendering
    case Point(p) => "<CalibrationPoint corner=" + Quote(p.corner) + " lon=" + Quote(p.lon.fixed6) + " lat=" + Quote(p.lat.fixed6) + " />\n"
    case PointsClose => "</CalibrationPoints>\n"
    case CalibrationClose => "</MapCalibration>\n"
    case TrackerClose => "</OruxTracker>\n"
  }

  /** The text of a document: its lines one after the other. */
  function Render(lines: seq<Otrk2Line>): string
  {
    if lines == [] then "" else Render(lines[..|lines| - 1]) + RenderLine(lines[|lines| - 1])
  }

  /** Appending a line to the document appends its text. */
  lemma RenderSnoc(lines: seq<Otrk2Line>, l: Otrk2Line)
    ensures Render(lines + [l]) == Render(lines) + RenderLine(l)
  {
    assert (lines + [l])[..|lines|] == lines;
  }

  /** The per-map calibration document, line by line, one element per append. */
  function Otrk2Lines(c: Otrk2Map): seq<Otrk2Line>
  {
    var pts := CalibrationPoints(c.bounds);
    [TrackerOpen("2.1")] + [CalibrationOpen(false, c.layerLevel)] + [MapNameLine(c.mapName)]
      + [MapChunks(c.chunksX, c.chunksY, c.fileName)] + [MapDimensions(c.height, c.width)]
      + [MapBounds(c.bounds.latMin, c.bounds.latMax, c.bounds.lonMin, c.bounds.lonMax)]
      + [PointsOpen] + [Point(pts[0])] + [Point(pts[1])] + [Point(pts[2])] + [Point(pts[3])]
      + [PointsClose] + [CalibrationClose] + [TrackerClose]
  }

  function Otrk2Text(c: Otrk2Map): string
  {
    Render(Otrk2Lines(c))
  }

  /** The per-map document as the fourteen appends that build it. */
  lemma Otrk2TextAppends(c: Otrk2Map)
    ensures Otrk2Text(c) == ""
      + RenderLine(TrackerOpen("2.1"))
      + RenderLine(CalibrationOpen(false, c.layerLevel))
      + RenderLine(MapNameLine(c.mapName))
      + RenderLine(MapChunks(c.chunksX, c.chunksY, c.fileName))
      + RenderLine(MapDimensions(c.height, c.width))
      + RenderLine(MapBounds(c.bounds.latMin, c.bounds.latMax, c.bounds.lonMin, c.bounds.lonMax))
      + RenderLine(PointsOpen)
      + RenderLine(Point(CalPoint("TL", c.bounds.lonMin, c.bounds.latMax)))
      + RenderLine(Point(CalPoint("BR", c.bounds.lonMax, c.bounds.latMin)))
      + RenderLine(Point(CalPoint("TR", c.bounds.lonMax, c.bounds.latMax)))
      + RenderLine(Point(CalPoint("BL", c.bounds.lonMin, c.bounds.latMin)))
      + RenderLine(PointsClose)
      + RenderLine(CalibrationClose)
      + RenderLine(TrackerClose)
  {
    var pts := CalibrationPoints(c.bounds);
    var lines: seq<Otrk2Line> := [TrackerOpen("2.1")];
    assert lines[..0] == [];
    RenderSnoc(lines, CalibrationOpen(false, c.layerLevel));
    lines := lines + [CalibrationOpen(false, c.layerLevel)];
    RenderSnoc(lines, MapNameLine(c.mapName));
    lines := lines + [MapNameLine(c.mapName)];
    RenderSnoc(lines, MapChunks(c.chunksX, c.chunksY, c.fileName));
    lines := lines + [MapChunks(c.chunksX, c.chunksY, c.fileName)];
    RenderSnoc(lines, MapDimensions(c.height, c.width));
    lines := lines + [MapDimensions(c.height, c.width)];
    RenderSnoc(lines, MapBounds(c.bounds.latMin, c.bounds.latMax, c.bounds.lonMin, c.bounds.lonMax));
    lines := lines + [MapBounds(c.bounds.latMin, c.bounds.latMax, c.bounds.lonMin, c.bounds.lonMax)];
    RenderSnoc(lines, PointsOpen);
    lines := lines + [PointsOpen];
    RenderSnoc(lines, Point(pts[0]));
    lines := lines + [Point(pts[0])];
    RenderSnoc(lines, Point(pts[1]));
    lines := lines + [Point(pts[1])];
    RenderSnoc(lines, Point(pts[2]));
    lines := lines + [Point(pts[2])];
    RenderSnoc(lines, Point(pts[3]));
    lines := lines + [Point(pts[3])];
    RenderSnoc(lines, PointsClose);
    lines := lines + [PointsClose];
    RenderSnoc(lines, CalibrationClose);
    lines := lines + [CalibrationClose];
    RenderSnoc(lines, TrackerClose);
    lines := lines + [TrackerClose];
  }

  /** The layer-level calibration document written by finishLayerCreation (appendMapContent adds
      nothing in this class). */
  function MainOtrk2Lines(name: string, calVersionCode: string): seq<Otrk2Line>
  {
    [XmlDeclaration, TrackerOpen(calVersionCode), CalibrationOpen(true, 0), MapNameLine(name),
     CalibrationClose, TrackerClose]
  }

  /**
   * The layer document and a map document share their frame: the same tracker element (with the
   * creator's version code "2.1"), a MapCalibration element and a MapName naming what they
   * describe, closed the same way. The layer document alone starts with the XML declaration,
   * and it is marked as layered at level 0 where a map document is unlayered at its zoom.
   */
  lemma LayerAndMapDocuments(name: string, c: Otrk2Map)
    ensures var main, doc := MainOtrk2Lines(name, "2.1"), Otrk2Lines(c);
      && |main| == 6 && |doc| == 14
      && main[0] == XmlDeclaration && XmlDeclaration !in doc
      && main[1] == doc[0] == TrackerOpen("2.1")
      && main[2] == CalibrationOpen(true, 0) && doc[1] == CalibrationOpen(false, c.layerLevel)
      && main[3] == MapNameLine(name) && doc[2] == MapNameLine(c.mapName)
      && main[4..] == doc[12..] == [CalibrationClose, TrackerClose]
  {
    var doc := Otrk2Lines(c);
    assert doc[12..] == [CalibrationClose, TrackerClose];
    assert forall k :: 0 <= k < 14 ==> doc[k] != XmlDeclaration;
  }

  /** The calibration write swallows an IOException (it is only logged); anything else escapes. */
  function CalibrationWriteEscapes(write: Step): (s: Step)
    ensures s.Throws? <==> write.Throws? && !write.exception.IOException?
    ensures s.Throws? ==> s == write
  {
    if write.Throws? && write.exception.IOException? then Done else write
  }

  /** createMap's exception mapping: an interruption ends the map normally, an Error passes
      through, and any other exception becomes a MapCreationException carrying the map and the
      cause. */
  function CreateMapOutcome(m: MapDef, failure: Option<Exception>): (r: Result<(), Exception>)
    ensures r.Ok? <==> failure.None? || failure.value == InterruptedException
    ensures r.Err? && !failure.value.JavaError? ==> r.error == MapCreationException(None, m, failure.value)
    ensures r.Err? && failure.value.JavaError? ==> r.error == failure.value
  {
    match failure
    case None => Ok(())
    case Some(InterruptedException) => Ok(())
    case Some(JavaError(_)) => Err(failure.value)
    case Some(e) => Err(MapCreationException(None, m, e))
  }


  /** The calibration file written into layerDir, when the write succeeds. */
  function CalibrationWrite(layerDir: Path, mapName: string, doc: string, write: Step): seq<Action>
  {
    if write.Done? then [WriteText(Child(layerDir, mapName + ORUXMAPS_EXT), doc)] else []
  }

  /**
   * The file-system actions of createMap for the map directory layerDir: the directories are made
   * one after the other, the calibration document doc is written when its write succeeds, and the
   * tiles are built unless an earlier step threw something that escapes.
   */
  function CreateMapEffects(layerDir: Path, mapName: string, doc: string,
                            mkLayerDir: Step, mkImagesDir: Step, writeCal: Step, createTiles: Step): seq<Action>
  {
    var imagesDir := Child(layerDir, "set");
    if mkLayerDir.Throws? then []
    else if mkImagesDir.Throws? then [MkDir(layerDir)]
    else
      [MkDir(layerDir)] + [MkDir(imagesDir)]
      + CalibrationWrite(layerDir, mapName, doc, writeCal)
      + (if CalibrationWriteEscapes(writeCal).Done? && createTiles.Done? then [TilesCreated(imagesDir)] else [])
  }

  /**
   * What createMap does to the file system: the map directory first, then its "set" directory,
   * and nothing after a step that throws; the calibration file exactly when both directories
   * and the write succeed; the tiles exactly when no earlier step threw past the calibration
   * write and tile creation completes.
   */
  lemma CreateMapEffectsShape(layerDir: Path, mapName: string, doc: string,
                              mkLayerDir: Step, mkImagesDir: Step, writeCal: Step, createTiles: Step)
    ensures var a := CreateMapEffects(layerDir, mapName, doc, mkLayerDir, mkImagesDir, writeCal, createTiles);
      && |a| <= 4
      && (mkLayerDir.Throws? <==> a == [])
      && (mkLayerDir.Done? ==> a[0] == MkDir(layerDir))
      && (mkLayerDir.Done? && mkImagesDir.Done? ==> |a| >= 2 && a[1] == MkDir(Child(layerDir, "set")))
      && (WriteText(Child(layerDir, mapName + ORUXMAPS_EXT), doc) in a <==>
            mkLayerDir.Done? && mkImagesDir.Done? && writeCal.Done?)
      && (TilesCreated(Child(layerDir, "set")) in a <==>
            FirstFailure([mkLayerDir, mkImagesDir, CalibrationWriteEscapes(writeCal), createTiles]).None?)
  {
    var imagesDir := Child(layerDir, "set");
    FirstFailureOfFour(mkLayerDir, mkImagesDir, CalibrationWriteEscapes(writeCal), createTiles);
    assert imagesDir.segments[|layerDir.segments|] == "set";
    assert imagesDir != layerDir;
  }

  /** The OruxMaps atlas creator and the state its lifecycle methods set. */
  class OruxMapsCreator {
    const atlasDir: Path
    const atlas: seq<Layer>
    const calVersionCode: string
    var currentLayer: Option<Layer>
    var oruxMapsMainDir: Option<Path>
    var oruxMapsLayerDir: Option<Path>
    var oruxMapsImagesDir: Option<Path>
    var mapName: Option<string>
    var currentMap: Option<MapDef>
    var parameters: Option<TileImageParameters>
    /** The file-system actions performed so far, in order. */
    var effects: seq<Action>

    constructor(atlasDir: Path, atlas: seq<Layer>)
      ensures this.atlasDir == atlasDir && this.atlas == atlas && calVersionCode == "2.1"
      ensures currentLayer == None && oruxMapsMainDir == None && oruxMapsLayerDir == None
      ensures oruxMapsImagesDir == None && mapName == None && currentMap == None
      ensures parameters == None && effects == []
    {
      this.atlasDir := atlasDir;
      this.atlas := atlas;
      calVersionCode := "2.1";
      currentLayer := None;
      oruxMapsMainDir := None;
      oruxMapsLayerDir := None;
      oruxMapsImagesDir := None;
      mapName := None;
      currentMap := None;
      parameters := None;
      effects := [];
    }

    /** testMapSource: only Mercator power-of-two map spaces are accepted. */
    function TestMapSource(mapSpace: MapSpace): (ok: bool)
      ensures ok <==> mapSpace.projection == MercatorPower2
    {
      mapSpace.projection.MercatorPower2?
    }

    /**
     * testAtlas: rejects the atlas when some layer holds two maps with the same zoom level,
     * reporting the first such pair in layer order, then by first index, then by second.
     */
    method TestAtlas() returns (r: Result<(), (nat, nat, nat)>)
      ensures r.Ok? <==> forall l :: 0 <= l < |atlas| ==> !HasDuplicateZoom(atlas[l].maps)
      ensures r.Err? ==>
        var (l, i, j) := r.error;
        && l < |atlas| && SameZoomAt(atlas[l].maps, i, j)
        && (forall l' :: 0 <= l' < l ==> !HasDuplicateZoom(atlas[l'].maps))
        && (forall i', j' :: SameZoomAt(atlas[l].maps, i', j') ==> i < i' || (i == i' && j <= j'))
    {
      var l := 0;
      while l < |atlas|
        invariant 0 <= l <= |atlas|
        invariant forall l' :: 0 <= l' < l ==> !HasDuplicateZoom(atlas[l'].maps)
      {
        var maps := atlas[l].maps;
        var cont := |maps|;
        var i := 0;
        while i < cont
          invariant 0 <= i <= cont
          invariant forall i', j' :: SameZoomAt(maps, i', j') ==> i' >= i
        {
          var currZoomLevel := maps[i].zoom;
          var j := i + 1;
          while j < cont
            invariant i + 1 <= j <= cont
            invariant forall j' :: i < j' < j ==> maps[j'].zoom != currZoomLevel
          {
            var nextZoomLevel := maps[j].zoom;
            if currZoomLevel == nextZoomLevel {
              assert SameZoomAt(atlas[l].maps, i, j);
              return Err((l, i, j));
            }
            j := j + 1;
          }
          i := i + 1;
        }
        l := l + 1;
      }
      r := Ok(());
    }

    /** initLayerCreation: the layer's directory is atlasDir / layer name. */
    method InitLayerCreation(layer: Layer, mkDirs: Step) returns (r: Result<(), Exception>)
      modifies this`currentLayer, this`oruxMapsMainDir, this`effects
      ensures currentLayer == Some(layer) && oruxMapsMainDir == Some(Child(atlasDir, layer.name))
      ensures mkDirs.Done? ==> r.Ok? && effects == old(effects) + [MkDirs(Child(atlasDir, layer.name))]
      ensures mkDirs.Throws? ==> r == Err(mkDirs.exception) && effects == old(effects)
    {
      currentLayer := Some(layer);
      var dir := Child(atlasDir, layer.name);
      oruxMapsMainDir := Some(dir);
      if mkDirs.Throws? {
        return Err(mkDirs.exception);
      }
      effects := effects + [MkDirs(dir)];
      r := Ok(());
    }

    /**
     * finishLayerCreation: writes "<layer>.otrk2.xml" into the layer directory. Opening the file
     * creates or truncates it before the text is appended; an IOException from either step is
     * only logged, any other exception escapes.
     */
    method FinishLayerCreation(open: Step, write: Step) returns (escaped: Step)
      requires currentLayer.Some? && oruxMapsMainDir.Some?
      modifies this`effects
      ensures escaped == CalibrationWriteEscapes(if open.Throws? then open else write)
      ensures var name := currentLayer.value.name;
        var otrk2 := Child(oruxMapsMainDir.value, name + ORUXMAPS_EXT);
        && (open.Throws? ==> effects == old(effects))
        && (open.Done? && write.Throws? ==> effects == old(effects) + [CreateFile(otrk2)])
        && (open.Done? && write.Done? ==>
              effects == old(effects) + [CreateFile(otrk2), WriteText(otrk2, Render(MainOtrk2Lines(name, calVersionCode)))])
    {
      var name := currentLayer.value.name;
      var otrk2 := Child(oruxMapsMainDir.value, name + ORUXMAPS_EXT);
      if open.Throws? {
        return CalibrationWriteEscapes(open);
      }
      effects := effects + [CreateFile(otrk2)];
      if write.Throws? {
        return CalibrationWriteEscapes(write);
      }
      effects := effects + [WriteText(otrk2, Render(MainOtrk2Lines(name, calVersionCode)))];
      escaped := Done;
    }

    /** initializeMap: takes the map's parameters (as the base creator does), forces 512-pixel
        tiles, and names the map after the layer and the zoom. */
    method InitializeMap(m: MapDef)
      requires currentLayer.Some?
      modifies this`currentMap, this`parameters, this`mapName
      ensures currentMap == Some(m)
      ensures parameters == Some(ForcedParameters(m.parameters))
      ensures mapName == Some(MapName(currentLayer.value.name, m.zoom))
    {
      currentMap := Some(m);
      parameters := m.parameters;
      parameters := Some(ForcedParameters(parameters));
      mapName := Some(MapName(currentLayer.value.name, m.zoom));
    }

    /** prepareOtrk2File: the per-map calibration document; lonOf and latOf are the map space's
        cXToLon and cYToLat at the map's zoom. */
    method PrepareOtrk2File(lonOf: int -> Degrees, latOf: int -> Degrees) returns (doc: string)
      requires currentMap.Some? && mapName.Some?
      ensures doc == Otrk2Text(Calibrate(currentMap.value, mapName.value, lonOf, latOf))
    {
      var m := currentMap.value;
      var name := mapName.value;
      ghost var c := Calibrate(m, name, lonOf, latOf);
      // the four bounds, each projected from the pixel on its edge of the tile rectangle
      var bounds := Project(BoundPixels(m), lonOf, latOf);
      var longitudeMin, longitudeMax := bounds.lonMin, bounds.lonMax;
      var latitudeMin, latitudeMax := bounds.latMin, bounds.latMax;
      assert c.bounds == bounds;
      doc := "";
      doc := doc + RenderLine(TrackerOpen("2.1"));
      doc := doc + RenderLine(CalibrationOpen(false, m.zoom));
      doc := doc + RenderLine(MapNameLine(name));

      // the map name escaped for the file_name attribute, one special character per call
      var mapFileName := name;
      mapFileName := XmlEscape.ReplaceAll(mapFileName, '&', "&amp;");
      mapFileName := XmlEscape.ReplaceAll(mapFileName, '<', "&lt;");
      mapFileName := XmlEscape.ReplaceAll(mapFileName, '>', "&gt;");
      mapFileName := XmlEscape.ReplaceAll(mapFileName, '"', "&quot;");
      mapFileName := XmlEscape.ReplaceAll(mapFileName, '\'', "&apos;");
      XmlEscape.ReplaceFirstFive(name);
      XmlEscape.ReplaceChainEscapes(name);
      assert c.fileName == mapFileName;

      var mapWidth := MapWidth(m);
      var mapHeight := MapHeight(m);
      var numXimg := ChunkCount(mapWidth);
      var numYimg := ChunkCount(mapHeight);
      doc := doc + RenderLine(MapChunks(numXimg, numYimg, mapFileName));
      doc := doc + RenderLine(MapDimensions(mapHeight, mapWidth));
      doc := doc + RenderLine(MapBounds(latitudeMin, latitudeMax, longitudeMin, longitudeMax));
      doc := doc + RenderLine(PointsOpen);
      doc := doc + RenderLine(Point(CalPoint("TL", longitudeMin, latitudeMax)));
      doc := doc + RenderLine(Point(CalPoint("BR", longitudeMax, latitudeMin)));
      doc := doc + RenderLine(Point(CalPoint("TR", longitudeMax, latitudeMax)));
      doc := doc + RenderLine(Point(CalPoint("BL", longitudeMin, latitudeMin)));
      doc := doc + RenderLine(PointsClose);
      doc := doc + RenderLine(CalibrationClose);
      doc := doc + RenderLine(TrackerClose);
      Otrk2TextAppends(c);
      assert c == Otrk2Map(m.zoom, name, mapFileName, numXimg, numYimg, mapWidth, mapHeight,
        GeoBounds(longitudeMin, longitudeMax, latitudeMin, latitudeMax));
    }

    /** writeOtrk2File: writes the calibration document to "<map>.otrk2.xml" in the map directory;
        an IOException is only logged, any other exception escapes. */
    method WriteOtrk2File(write: Step, lonOf: int -> Degrees, latOf: int -> Degrees) returns (escaped: Step)
      requires currentMap.Some? && mapName.Some? && oruxMapsLayerDir.Some?
      modifies this`effects
      ensures escaped == CalibrationWriteEscapes(write)
      ensures effects == old(effects) + CalibrationWrite(oruxMapsLayerDir.value, mapName.value,
                                       old(Otrk2Text(Calibrate(currentMap.value, mapName.value, lonOf, latOf))), write)
    {
      var otrk2File := Child(oruxMapsLayerDir.value, mapName.value + ORUXMAPS_EXT);
      if write.Throws? {
        if write.exception.IOException? {
          return Done;
        }
        return write;
      }
      var doc := PrepareOtrk2File(lonOf, latOf);
      effects := effects + [WriteText(otrk2File, doc)];
      escaped := Done;
    }

    /**
     * createMap: makes the map directory and its "set" directory, writes the calibration file,
     * then has the tiles built. The outcome is that of the first step that throws (a failed
     * calibration write with an IOException is only logged), mapped by CreateMapOutcome.
     */
    method CreateMap(mkLayerDir: Step, mkImagesDir: Step, writeCal: Step, createTiles: Step,
                     lonOf: int -> Degrees, latOf: int -> Degrees) returns (r: Result<(), Exception>)
      requires currentMap.Some? && mapName.Some? && oruxMapsMainDir.Some?
      modifies this`oruxMapsLayerDir, this`oruxMapsImagesDir, this`effects
      ensures oruxMapsLayerDir == Some(Child(oruxMapsMainDir.value, mapName.value))
      ensures oruxMapsImagesDir == Some(Child(oruxMapsLayerDir.value, "set"))
      ensures r == CreateMapOutcome(currentMap.value,
                     FirstFailure([mkLayerDir, mkImagesDir, CalibrationWriteEscapes(writeCal), createTiles]))
      ensures effects == old(effects) + CreateMapEffects(oruxMapsLayerDir.value, mapName.value,
        old(Otrk2Text(Calibrate(currentMap.value, mapName.value, lonOf, latOf))),
        mkLayerDir, mkImagesDir, writeCal, createTiles)
    {
      oruxMapsLayerDir := Some(Child(oruxMapsMainDir.value, mapName.value));
      oruxMapsImagesDir := Some(Child(oruxMapsLayerDir.value, "set"));
      ghost var doc := Otrk2Text(Calibrate(currentMap.value, mapName.value, lonOf, latOf));
      var failure := CreateMapSteps(mkLayerDir, mkImagesDir, writeCal, createTiles, lonOf, latOf, doc);
      r := CreateMapOutcome(currentMap.value, failure);
    }

    /** The try block of createMap: the steps in order, stopping at the first that throws. */
    method CreateMapSteps(mkLayerDir: Step, mkImagesDir: Step, writeCal: Step, createTiles: Step,
                          lonOf: int -> Degrees, latOf: int -> Degrees, ghost doc: string) returns (failure: Option<Exception>)
      requires currentMap.Some? && mapName.Some? && oruxMapsLayerDir.Some?
      requires oruxMapsImagesDir == Some(Child(oruxMapsLayerDir.value, "set"))
      requires doc == Otrk2Text(Calibrate(currentMap.value, mapName.value, lonOf, latOf))
      modifies this`effects
      ensures failure == FirstFailure([mkLayerDir, mkImagesDir, CalibrationWriteEscapes(writeCal), createTiles])
      ensures effects == old(effects) + CreateMapEffects(oruxMapsLayerDir.value, mapName.value, doc,
        mkLayerDir, mkImagesDir, writeCal, createTiles)
    {
      var layerDir, imagesDir := oruxMapsLayerDir.value, oruxMapsImagesDir.value;
      FirstFailureOfFour(mkLayerDir, mkImagesDir, CalibrationWriteEscapes(writeCal), createTiles);
      ghost var expected := CreateMapEffects(layerDir, mapName.value, doc, mkLayerDir, mkImagesDir, writeCal, createTiles);
      if mkLayerDir.Throws? {
        assert expected == [];
        return Some(mkLayerDir.exception);
      }
      effects := effects + [MkDir(layerDir)];
      if mkImagesDir.Throws? {
        assert expected == [MkDir(layerDir)];
        return Some(mkImagesDir.exception);
      }
      effects := effects + [MkDir(imagesDir)];
      var escaped := WriteOtrk2File(writeCal, lonOf, latOf);
      assert effects == old(effects) + [MkDir(layerDir)] + [MkDir(imagesDir)] + CalibrationWrite(layerDir, mapName.value, doc, writeCal);
      if escaped.Throws? {
        return Some(escaped.exception);
      }
      if createTiles.Throws? {
        return Some(createTiles.exception);
      }
      effects := effects + [TilesCreated(imagesDir)];
      failure := None;
    }

    /**
     * The tile writer: each tile goes to "set/<map>_<x>_<y>.omc2". Opening the file creates or
     * truncates it before the bytes are written; an exception from either step propagates.
     */
    method WriteTile(tilex: int, tiley: int, tileData: seq<bv8>, open: Step, write: Step)
      returns (r: Result<(), Exception>)
      requires oruxMapsImagesDir.Some? && mapName.Some?
      modifies this`effects
      ensures var file := Child(oruxMapsImagesDir.value, TileFileName(mapName.value, tilex, tiley));
        && (open.Throws? ==> r == Err(open.exception) && effects == old(effects))
        && (open.Done? && write.Throws? ==> r == Err(write.exception) && effects == old(effects) + [CreateFile(file)])
        && (open.Done? && write.Done? ==> r.Ok? && effects == old(effects) + [CreateFile(file), WriteBytes(file, tileData)])
    {
      var file := Child(oruxMapsImagesDir.value, TileFileName(mapName.value, tilex, tiley));
      if open.Throws? {
        return Err(open.exception);
      }
      effects := effects + [CreateFile(file)];
      if write.Throws? {
        return Err(write.exception);
      }
      effects := effects + [WriteBytes(file, tileData)];
      r := Ok(());
    }
  }
}
