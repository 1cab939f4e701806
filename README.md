# Atlas creators and the multi-layer map source, modelled in Dafny

This project models three parts of a map-atlas downloader: the multi-layer map source
(`AbstractMultiLayerMapSource`), the OruxMaps atlas creator (`OruxMaps`) and the
Touratech QV atlas creator (`TTQV`).

- The multi-layer map source stacks several layer sources. It computes the zoom window they
  share and checks that they use one map space. For each tile it decides the outcome: no
  tile, one layer's image passed through, or a canvas with every present image drawn on it
  in layer order.
- The OruxMaps creator works per layer and per map:
  - it rejects layers with two maps at one zoom;
  - it forces 512-pixel tiles;
  - it names maps "<layer> <zoom>" and tiles "<map>_<x>_<y>.omc2";
  - it lays out directories;
  - it writes an XML calibration document whose map file name is escaped for an attribute.
- The Touratech QV creator makes the layer directory and has the tiles built. It then writes
  "<map>_png.cal", a file of CRLF-terminated "key = type = value" lines that pin four image
  pixels to the map's geographic corners.

Layout:

- `wrappers.dfy`: Option and Result.
- `text.dfy`: Integer.toString and "%02d", with their parse-back.
- `atlas_model.dfy`: the shared values.
  - Maps, paths, exceptions and file-system actions.
  - The bound pixels both creators project.
  - Java's truncating division.
  - The first failure of a run of steps.
- `xml_escape.dfy`: the replaceAll chain seen as a one-pass escape.
- `multi_layer.dfy`, `oruxmaps.dfy`, `ttqv.dfy`: one module per source file.
  - The lifecycle state of each is a class whose methods update its fields.

Calls into code outside the model are parameters:

- `Step` is `Done` or `Throws(e)`. It stands for making a directory, building tiles and
  writing a file.
- Projection: `lonOf` and `latOf` map a pixel coordinate at the map's zoom to the two
  printed forms of a double.
- Each creator records what it does to the file system in an `effects` sequence.

## Model

| member | source | states |
|---|---|---|
| MultiLayerMapSource.MinZoomIsLeastUpperBound | src/main/java/osmcd/mapsources/AbstractMultiLayerMapSource.java:65-72 | minZoom is at least 0 and at least every layer's minZoom, and equals 0 or one of them (their maximum) |
| MultiLayerMapSource.MaxZoomIsGreatestLowerBound | src/main/java/osmcd/mapsources/AbstractMultiLayerMapSource.java:68-71 | maxZoom is at most MAX_ZOOM and every layer's maxZoom, and equals MAX_ZOOM or one of them (their minimum) |
| MultiLayerMapSource.MinZoomOf | src/main/java/osmcd/mapsources/AbstractMultiLayerMapSource.java:69-72 | the fold of Math.max over the visited layers' minZoom, from 0; stated by MinZoomIsLeastUpperBound |
| MultiLayerMapSource.MaxZoomOf | src/main/java/osmcd/mapsources/AbstractMultiLayerMapSource.java:68-71 | the fold of Math.min over the visited layers' maxZoom, from MAX_ZOOM; stated by MaxZoomIsGreatestLowerBound |
| MultiLayerMapSource.FirstMismatch | src/main/java/osmcd/mapsources/AbstractMultiLayerMapSource.java:73-74 | the layers before the returned index share the reference map space and the one at it does not |
| MultiLayerMapSource.MultiLayerSource.InitializeValues | src/main/java/osmcd/mapsources/AbstractMultiLayerMapSource.java:65-76 | no first layer is an error; otherwise the map space is the first layer's, and the call succeeds iff all map spaces agree; the zoom window is that of the layers visited, up to and including the first mismatch |
| MultiLayerMapSource.MultiLayerSource.Initialize | src/main/java/osmcd/mapsources/AbstractMultiLayerMapSource.java:79-90 | the same zoom window over all layers, no map-space check, success whenever a first layer exists |
| MultiLayerMapSource.PresentEmptyIffAllAbsent | src/main/java/osmcd/mapsources/AbstractMultiLayerMapSource.java:165-176 | the list of layer images is empty iff every layer answered null |
| MultiLayerMapSource.PresentAtRank | src/main/java/osmcd/mapsources/AbstractMultiLayerMapSource.java:163-176 | an answering layer's image stands in the image list at its rank (the number of earlier answering layers) |
| MultiLayerMapSource.Present | src/main/java/osmcd/mapsources/AbstractMultiLayerMapSource.java:163-176 | the layer images in layer order, the nulls dropped; stated by PresentAtRank, AbsentLayerKeepsRank, PresentFromAnsweringLayer and PresentEmptyIffAllAbsent |
| MultiLayerMapSource.AbsentLayerKeepsRank | src/main/java/osmcd/mapsources/AbstractMultiLayerMapSource.java:167-168 | a layer that answers null adds nothing to the image list: the rank after it equals the rank before it |
| MultiLayerMapSource.PresentFromAnsweringLayer | src/main/java/osmcd/mapsources/AbstractMultiLayerMapSource.java:163-176 | every image in the list is the image of an answering layer whose rank is its position, so the list holds nothing else |
| MultiLayerMapSource.ComposeTile | src/main/java/osmcd/mapsources/AbstractMultiLayerMapSource.java:178-195 | the three outcomes of getTileImage; stated by NoTileIffNoLayerImage, SingleImagePassedThrough, CanvasSizeIsMaximum and CompositeDrawsInLayerOrder |
| MultiLayerMapSource.NoTileIffNoLayerImage | src/main/java/osmcd/mapsources/AbstractMultiLayerMapSource.java:163-194 | getTileImage answers null iff every layer answered null |
| MultiLayerMapSource.SingleImagePassedThrough | src/main/java/osmcd/mapsources/AbstractMultiLayerMapSource.java:179-180 | when exactly one layer answers, its image is returned itself |
| MultiLayerMapSource.CanvasSizeIsMaximum | src/main/java/osmcd/mapsources/AbstractMultiLayerMapSource.java:164-175 | the canvas side is the maximum of the tile size and the widths of the present images |
| MultiLayerMapSource.CanvasSize | src/main/java/osmcd/mapsources/AbstractMultiLayerMapSource.java:164-175 | maxSize after the loop; stated by CanvasSizeIsMaximum |
| MultiLayerMapSource.CompositeDrawsInLayerOrder | src/main/java/osmcd/mapsources/AbstractMultiLayerMapSource.java:181-192 | with two or more images the canvas has the black background and draws each present image scaled to the canvas, at its rank, with the alpha of its rank |
| MultiLayerMapSource.EarlierLayerDrawnFirst | src/main/java/osmcd/mapsources/AbstractMultiLayerMapSource.java:187-191 | of two answering layers the earlier one is drawn first |
| MultiLayerMapSource.LayerAlpha | src/main/java/osmcd/mapsources/AbstractMultiLayerMapSource.java:205-207 | every layer's alpha is within [0, 1] (it is 1) |
| MultiLayerMapSource.BackgroundColor | src/main/java/osmcd/mapsources/AbstractMultiLayerMapSource.java:96-98 | the background is black |
| MultiLayerMapSource.DrawPlan | src/main/java/osmcd/mapsources/AbstractMultiLayerMapSource.java:187-191 | one draw operation per present image |
| MultiLayerMapSource.EncodeTile | src/main/java/osmcd/mapsources/AbstractMultiLayerMapSource.java:120-129 | no bytes exactly for no tile; otherwise the image encoded in the source's tile format |
| MultiLayerMapSource.MultiLayerSource.constructor | src/main/java/osmcd/mapsources/AbstractMultiLayerMapSource.java:55-59 | a source with the given name and tile type and no loader information; the layers, which subclasses assign to mapSources, are a constructor argument of the model |
| MultiLayerMapSource.MultiLayerSource.GetTileImage | src/main/java/osmcd/mapsources/AbstractMultiLayerMapSource.java:157-203 | the collecting loop and the drawing loop compute ComposeTile of the layers' answers |
| MultiLayerMapSource.MultiLayerSource.GetTileData | src/main/java/osmcd/mapsources/AbstractMultiLayerMapSource.java:120-129 | null iff every layer answered null; otherwise the encoded composite |
| MultiLayerMapSource.MultiLayerSource.SetLoaderInfo | src/main/java/osmcd/mapsources/AbstractMultiLayerMapSource.java:227-231 | succeeds iff no loader information was set; a second call fails with "LoaderInfo already set" and keeps the first value |
| Text.NatToStringDigits | src/main/java/osmcd/program/atlascreators/OruxMaps.java:304 | Integer.toString of a natural number is a non-empty run of digits, at least two for 10 and above |
| Text.IntToString | src/main/java/osmcd/program/atlascreators/OruxMaps.java:304 | the decimal text of an int; stated by IntToStringIsIntText, ParseIntOfIntToString and IntToStringInjective |
| Text.IntToStringIsIntText | src/main/java/osmcd/program/atlascreators/OruxMaps.java:304 | Integer.toString gives an optional minus sign followed by digits |
| Text.ParseNatOfNatToString | src/main/java/osmcd/program/atlascreators/OruxMaps.java:304 | reading the digits back gives the number |
| Text.ParseIntOfIntToString | src/main/java/osmcd/program/atlascreators/OruxMaps.java:304 | reading Integer.toString back gives the integer |
| Text.IntToStringInjective | src/main/java/osmcd/program/atlascreators/OruxMaps.java:304 | distinct integers print differently |
| Text.ZeroPad2IsIntText | src/main/java/osmcd/program/atlascreators/OruxMaps.java:150 | "%02d" gives an integer text of at least two characters |
| Text.ZeroPad2 | src/main/java/osmcd/program/atlascreators/OruxMaps.java:150 | "%02d" of an int; stated by ZeroPad2IsIntText, ParseIntOfZeroPad2 and ZeroPad2Injective |
| Text.ParseIntOfZeroPad2 | src/main/java/osmcd/program/atlascreators/OruxMaps.java:150 | reading "%02d" back gives the integer |
| Text.ZeroPad2Injective | src/main/java/osmcd/program/atlascreators/OruxMaps.java:150 | distinct zooms are padded differently |
| AtlasModel.Child | src/main/java/osmcd/program/atlascreators/OruxMaps.java:123 | new File(dir, name) extends the path by exactly that name |
| AtlasModel.BoundPixels | src/main/java/osmcd/program/atlascreators/OruxMaps.java:248-251 | the west and east pixels lie the map width apart and the south and north pixels the map height, starting at xMin * tileSize and yMin * tileSize |
| AtlasModel.BoundsOrdered | src/main/java/osmcd/program/atlascreators/TTQV.java:65-71 | for a non-empty rectangle of positive tiles the east pixel is right of the west one and the south pixel below the north one |
| AtlasModel.MapWidth | src/main/java/osmcd/program/atlascreators/OruxMaps.java:265 | (xMax - xMin + 1) * tileSize, also the TTQV width at TTQV.java:70; stated by BoundPixels, whose east and west pixels lie MapWidth apart |
| AtlasModel.MapHeight | src/main/java/osmcd/program/atlascreators/OruxMaps.java:266 | (yMax - yMin + 1) * tileSize, also the TTQV height at TTQV.java:71; stated by BoundPixels, whose south and north pixels lie MapHeight apart |
| AtlasModel.JavaDiv | src/main/java/osmcd/program/atlascreators/OruxMaps.java:267-268 | Java's int division agrees with floor division for non-negative operands |
| AtlasModel.FirstFailureSpec | src/main/java/osmcd/program/atlascreators/OruxMaps.java:158-162 | no failure iff every step completes; otherwise the failure is that of a step preceded only by completed ones |
| AtlasModel.FirstFailure | src/main/java/osmcd/program/atlascreators/OruxMaps.java:158-162 | the exception of the first step of a try block that throws; stated by FirstFailureSpec, FirstFailureOfFour and LeadingDoneSpec |
| AtlasModel.FirstFailureOfFour | src/main/java/osmcd/program/atlascreators/OruxMaps.java:158-162 | the first failure of the four steps of createMap, case by case |
| AtlasModel.LeadingDoneSpec | src/main/java/osmcd/program/atlascreators/TTQV.java:48-54 | the steps before the count complete, the step at it throws, and its exception is the first failure |
| AtlasModel.StepsOfThree | src/main/java/osmcd/program/atlascreators/TTQV.java:48-54 | count and first failure of the three steps of createMap, case by case |
| XmlEscape.ReplaceAll | src/main/java/osmcd/program/atlascreators/OruxMaps.java:259 | replacing a character that does not occur changes nothing |
| XmlEscape.ReplaceStep | src/main/java/osmcd/program/atlascreators/OruxMaps.java:259-263 | each replaceAll call, after the earlier ones, escapes exactly one more special character |
| XmlEscape.ReplaceFirstIsEscapeFirst | src/main/java/osmcd/program/atlascreators/OruxMaps.java:258-263 | the first k calls escape exactly the first k special characters, each once |
| XmlEscape.ReplaceFirst | src/main/java/osmcd/program/atlascreators/OruxMaps.java:258-263 | the first k replaceAll calls in source order; stated by ReplaceFirstIsEscapeFirst and ReplaceChainEscapes |
| XmlEscape.EscapeOnceNoMarkup | src/main/java/osmcd/program/atlascreators/OruxMaps.java:258-263 | the escaped name has no raw <, >, " or ' |
| XmlEscape.Unescape | src/main/java/osmcd/program/atlascreators/OruxMaps.java:258-263 | reads the five entities back, the inverse of the escape; stated by UnescapeEscapeOnce |
| XmlEscape.UnescapeEscapeOnce | src/main/java/osmcd/program/atlascreators/OruxMaps.java:258-263 | unescaping the escaped name gives the name back |
| XmlEscape.ReplaceChainEscapes | src/main/java/osmcd/program/atlascreators/OruxMaps.java:258-263 | the five calls, ampersand first, escape each character once, leave no markup and unescape to the input |
| XmlEscape.ReplaceFirstFive | src/main/java/osmcd/program/atlascreators/OruxMaps.java:258-263 | the chain of five calls as the creator writes them |
| OruxMaps.MapName | src/main/java/osmcd/program/atlascreators/OruxMaps.java:150 | the map name is the layer name, a space, and a text that reads back as the zoom |
| OruxMaps.MapNameInjective | src/main/java/osmcd/program/atlascreators/OruxMaps.java:150 | maps of one layer have the same name only at the same zoom |
| OruxMaps.TileFileNameShape | src/main/java/osmcd/program/atlascreators/OruxMaps.java:304 | a tile file name starts with the map name and an underscore and ends in ".omc2" |
| OruxMaps.TileFileName | src/main/java/osmcd/program/atlascreators/OruxMaps.java:304 | "<map>_<x>_<y>.omc2"; stated by TileFileNameShape and TileFileNameInjective |
| OruxMaps.TileFileNameInjective | src/main/java/osmcd/program/atlascreators/OruxMaps.java:304-305 | distinct tiles of a map go to distinct files |
| OruxMaps.NoDuplicateIffDistinctZooms | src/main/java/osmcd/program/atlascreators/OruxMaps.java:94-111 | a layer has no two maps at one zoom iff it has as many zoom levels as maps |
| OruxMaps.HasDuplicateZoom | src/main/java/osmcd/program/atlascreators/OruxMaps.java:94-111 | two maps of a layer at one zoom, the condition testAtlas rejects; stated by NoDuplicateIffDistinctZooms |
| OruxMaps.PassingLayerHasDistinctMapDirs | src/main/java/osmcd/program/atlascreators/OruxMaps.java:150-157 | in a layer that passes testAtlas every map has its own directory |
| OruxMaps.MapDir | src/main/java/osmcd/program/atlascreators/OruxMaps.java:156 | the map's directory inside the layer directory; stated by PassingLayerHasDistinctMapDirs |
| OruxMaps.ChunkCountCovers | src/main/java/osmcd/program/atlascreators/OruxMaps.java:267-268 | the chunk count is the least number of 512-pixel chunks covering the size |
| OruxMaps.ChunkCount | src/main/java/osmcd/program/atlascreators/OruxMaps.java:267-268 | the rounded-up number of 512-pixel chunks; stated by ChunkCountCovers |
| OruxMaps.ForcedParameters | src/main/java/osmcd/program/atlascreators/OruxMaps.java:146-149 | tiles are 512 x 512; the format is JPEG90 without user parameters, the user's format otherwise |
| OruxMaps.CalibrationPointsCorners | src/main/java/osmcd/program/atlascreators/OruxMaps.java:276-280 | the points are TL, BR, TR, BL; a top corner carries latitudeMax, a bottom one latitudeMin, a left one longitudeMin, a right one longitudeMax |
| OruxMaps.CalibrationPoints | src/main/java/osmcd/program/atlascreators/OruxMaps.java:276-280 | the four corner points; stated by CalibrationPointsCorners |
| OruxMaps.CalibrateSpec | src/main/java/osmcd/program/atlascreators/OruxMaps.java:254-272 | layerLevel is the zoom; file_name has no markup and unescapes to the map name; the sizes are the pixel sizes with their chunk counts |
| OruxMaps.CalibrateBounds | src/main/java/osmcd/program/atlascreators/OruxMaps.java:248-251 | each bound is projected from its edge pixel |
| OruxMaps.Calibrate | src/main/java/osmcd/program/atlascreators/OruxMaps.java:244-272 | the values of the per-map document; stated by CalibrateSpec and CalibrateBounds |
| OruxMaps.Otrk2TextAppends | src/main/java/osmcd/program/atlascreators/OruxMaps.java:252-283 | the per-map document is the fourteen appends in order |
| OruxMaps.RenderLine | src/main/java/osmcd/program/atlascreators/OruxMaps.java:252-283 | the text of one appended line; stated by Otrk2TextAppends |
| OruxMaps.Otrk2Lines | src/main/java/osmcd/program/atlascreators/OruxMaps.java:252-283 | the fourteen lines of a map document; stated by Otrk2TextAppends and LayerAndMapDocuments |
| OruxMaps.Otrk2Text | src/main/java/osmcd/program/atlascreators/OruxMaps.java:252-283 | the text prepareOtrk2File returns; stated by Otrk2TextAppends |
| OruxMaps.MainOtrk2Lines | src/main/java/osmcd/program/atlascreators/OruxMaps.java:197-206 | the layer document; stated by LayerAndMapDocuments |
| OruxMaps.LayerAndMapDocuments | src/main/java/osmcd/program/atlascreators/OruxMaps.java:197-206 | the layer document starts with the XML declaration, which no map document has, shares the tracker element and the closing lines with every map document, and is marked layered at level 0 where a map document is unlayered at its zoom |
| OruxMaps.CalibrationWriteEscapes | src/main/java/osmcd/program/atlascreators/OruxMaps.java:223-238 | a write escapes exactly when it throws something other than an IOException |
| OruxMaps.CalibrationWrite | src/main/java/osmcd/program/atlascreators/OruxMaps.java:223-238 | the file writeOtrk2File leaves, "<map>.otrk2.xml" in the map directory, or nothing when the write throws; stated by WriteOtrk2File and CreateMapEffectsShape |
| OruxMaps.CreateMapOutcome | src/main/java/osmcd/program/atlascreators/OruxMaps.java:163-168 | createMap ends normally iff nothing is thrown or the exception is an interruption; a java.lang.Error passes through unwrapped; any other exception becomes a MapCreationException carrying the map and the cause |
| OruxMaps.CreateMapEffects | src/main/java/osmcd/program/atlascreators/OruxMaps.java:156-162 | the file-system actions of createMap; stated by CreateMapEffectsShape |
| OruxMaps.CreateMapEffectsShape | src/main/java/osmcd/program/atlascreators/OruxMaps.java:156-162 | the map directory and then its "set" directory are made; nothing is done after a step that throws; the calibration file is written iff both directories and the write succeed; the tiles are recorded iff no escaping exception came first and tile creation completes (tiles written before createTiles throws are not recorded) |
| OruxMaps.OruxMapsCreator.constructor | src/main/java/osmcd/program/atlascreators/OruxMaps.java:80-83 | calVersionCode is "2.1" and no layer or map is set |
| OruxMaps.OruxMapsCreator.TestMapSource | src/main/java/osmcd/program/atlascreators/OruxMaps.java:86-89 | a map source is accepted iff its map space is Mercator power-of-two |
| OruxMaps.OruxMapsCreator.TestAtlas | src/main/java/osmcd/program/atlascreators/OruxMaps.java:92-112 | the atlas passes iff no layer has two maps at one zoom; a failure reports the first such pair in scan order |
| OruxMaps.OruxMapsCreator.InitLayerCreation | src/main/java/osmcd/program/atlascreators/OruxMaps.java:119-126 | the layer directory is atlasDir / layer name and is made with mkDirs; a failure propagates |
| OruxMaps.OruxMapsCreator.FinishLayerCreation | src/main/java/osmcd/program/atlascreators/OruxMaps.java:190-213 | "<layer>.otrk2.xml" in the layer directory is created or truncated when it opens, and the layer document follows when the write completes; an IOException from either step is swallowed, any other exception propagates |
| OruxMaps.OruxMapsCreator.InitializeMap | src/main/java/osmcd/program/atlascreators/OruxMaps.java:142-151 | records the map, forces the tile parameters and names the map after layer and zoom |
| OruxMaps.OruxMapsCreator.PrepareOtrk2File | src/main/java/osmcd/program/atlascreators/OruxMaps.java:244-285 | the StringBuilder appends build the document of the map's calibration values |
| OruxMaps.OruxMapsCreator.WriteOtrk2File | src/main/java/osmcd/program/atlascreators/OruxMaps.java:223-238 | the document is written to "<map>.otrk2.xml" in the map directory unless the write throws; an IOException is swallowed |
| OruxMaps.OruxMapsCreator.CreateMap | src/main/java/osmcd/program/atlascreators/OruxMaps.java:154-169 | sets the map and "set" directories; the outcome and the file-system actions are those of the four steps |
| OruxMaps.OruxMapsCreator.CreateMapSteps | src/main/java/osmcd/program/atlascreators/OruxMaps.java:158-162 | the try block stops at the first step that throws |
| OruxMaps.OruxMapsCreator.WriteTile | src/main/java/osmcd/program/atlascreators/OruxMaps.java:303-311 | a tile's bytes go to "set/<map>_<x>_<y>.omc2"; opening creates or truncates the file before the bytes are written; an exception from opening leaves no trace, one from writing leaves the emptied file; either propagates |
| Ttqv.RenderLineEndsInCrlf | src/main/java/osmcd/program/atlascreators/TTQV.java:74-115 | every line ends in CRLF |
| Ttqv.RenderEndsInCrlf | src/main/java/osmcd/program/atlascreators/TTQV.java:77-115 | a file of n lines has at least 2n characters and ends in CRLF |
| Ttqv.KeyTextInjective | src/main/java/osmcd/program/atlascreators/TTQV.java:77-115 | distinct keys have distinct texts, so no corner key can be read as another |
| Ttqv.CalTextAppends | src/main/java/osmcd/program/atlascreators/TTQV.java:77-115 | the calibration text is the thirty-eight writes in the order of the code |
| Ttqv.RenderLine | src/main/java/osmcd/program/atlascreators/TTQV.java:77-115 | one written line; stated by RenderLineEndsInCrlf and CalTextAppends |
| Ttqv.CalText | src/main/java/osmcd/program/atlascreators/TTQV.java:77-115 | the text of the calibration file; stated by CalTextAppends and RenderEndsInCrlf |
| Ttqv.CalLines | src/main/java/osmcd/program/atlascreators/TTQV.java:77-115 | the thirty-eight lines of the calibration file in the order written; stated by CalTextAppends, RenderEndsInCrlf and KeyTextInjective |
| Ttqv.MapCalibrationSpec | src/main/java/osmcd/program/atlascreators/TTQV.java:65-86 | name and fname are "<map>.png"; nord, sued, ost and west are projected from the edge pixels; the scale is kept; corner 3 is the bottom-right pixel of the width x height image |
| Ttqv.MapCalibration | src/main/java/osmcd/program/atlascreators/TTQV.java:65-115 | the values the calibration file states for a map; stated by MapCalibrationSpec, CornersAgree and BoundsAgreeWithOruxMaps |
| Ttqv.Calibration | src/main/java/osmcd/program/atlascreators/TTQV.java:65-115 | the calibration for a size and bounds; stated by CalTextAppends and CornersAgree |
| Ttqv.CalFile | src/main/java/osmcd/program/atlascreators/TTQV.java:60 | "<map>_png.cal" in the layer directory; stated by WriteCalFile and CreateMapEffectsShape |
| Ttqv.BoundsAgreeWithOruxMaps | src/main/java/osmcd/program/atlascreators/TTQV.java:65-68 | the QV bounds are the bounds OruxMaps writes for the same map |
| Ttqv.CornersAgree | src/main/java/osmcd/program/atlascreators/TTQV.java:90-115 | the geographic corners go clockwise from north-west; each of the four pixel corners is a distinct image corner on exactly the sides its geographic corner lies on; corners 5 to 9 are pixel (0, 0) |
| Ttqv.MkDirFailure | src/main/java/osmcd/program/atlascreators/TTQV.java:48-52 | an IOException from mkDir wrapped without a message; stated by CreateMapOutcomeSpec |
| Ttqv.CalWriteFailure | src/main/java/osmcd/program/atlascreators/TTQV.java:119-120 | an IOException from the cal write wrapped with "Error writing cal file: " and its message; stated by CreateMapOutcomeSpec |
| Ttqv.CreateMapOutcome | src/main/java/osmcd/program/atlascreators/TTQV.java:47-55 | the outcome of the three steps of createMap; stated by CreateMapOutcomeSpec |
| Ttqv.CreateMapOutcomeSpec | src/main/java/osmcd/program/atlascreators/TTQV.java:47-120 | success iff all three steps complete; an IOException from mkDir or the cal write becomes a MapCreationException naming the map with the exception as cause, with the message "Error writing cal file: " followed by the exception's message exactly when the write threw it; whatever createTiles throws, an interruption included, propagates |
| Ttqv.CreateMapEffectsShape | src/main/java/osmcd/program/atlascreators/TTQV.java:48-54 | the actions are the first k of layer directory, tiles and cal file, k being the number of steps completed, and all three happen iff createMap succeeds |
| Ttqv.CreateMapEffects | src/main/java/osmcd/program/atlascreators/TTQV.java:48-54 | the file-system actions of createMap; stated by CreateMapEffectsShape |
| Ttqv.TtqvCreator.constructor | src/main/java/osmcd/program/atlascreators/TTQV.java:39-44 | a creator with the program title and no map set |
| Ttqv.TtqvCreator.InitializeMap | src/main/java/osmcd/program/atlascreators/TTQV.java:42-44 | records the map, its directory and its name (delegated to the Ozi creator) |
| Ttqv.TtqvCreator.CalFileText | src/main/java/osmcd/program/atlascreators/TTQV.java:63-115 | the text written is the rendering of the map's calibration |
| Ttqv.TtqvCreator.WriteCalFile | src/main/java/osmcd/program/atlascreators/TTQV.java:57-124 | the calibration text goes to "<map>_png.cal" in the layer directory; an IOException becomes MapCreationException("Error writing cal file: " + message) |
| Ttqv.TtqvCreator.CreateMap | src/main/java/osmcd/program/atlascreators/TTQV.java:47-55 | outcome and file-system actions are those of mkDir, createTiles and writeCalFile in order |

## Left out

- Floating point is left out: cXToLon, cYToLat, Double.toString and "%2.6f" are the inputs `lonOf`, `latOf` and `Degrees`.
- The scale_area computation and its DecimalFormat rendering are left out. The printed scale is the input `scaleArea`.
- PreviewMap.MAX_ZOOM is not part of this model. It is the parameter `previewMaxZoom`.
- ProgramInfo.getCompleteTitle() is not part of this model. It is the creator's `title`.
- The AtlasCreator base class is not part of this model.
  - The tile rectangle and tileSize are read from the map.
  - The parameters the base takes from the map are the map's own.
- The Ozi creator is not part of this model. TTQV's layerDir, mapName and createTiles come from it, so they are a parameter of InitializeMap and a Step.
- Image pixels, AlphaComposite and ImageIO are AWT calls. An image is an identity and a width; a draw records image, alpha and size; encoding records format and image.
- Each child's own initialize() inside initialize is a foreign call, left out.
- The tile builders (MapTileBuilder, CacheTileProvider, OruxMapTileBuilder with its background fill) are code not visible here. Tile creation is one Step.
- Logging is left out: log.debug and log.error have no effect on the model.
- OruxMaps.OruxMapsCreator.WriteTile: when the write throws, the file is recorded as emptied. Bytes partly written before the failure are not modelled.
- OruxMaps.OruxMapsCreator.CreateMap: tiles the tile builder wrote before it threw are not recorded. The model records tiles only as one action once tile creation completes. The same holds for Ttqv.TtqvCreator.CreateMap.
- OruxMaps.OruxMapsCreator.WriteOtrk2File: a failing write is one step. The file that new FileOutputStream creates or truncates before a write throws is not recorded, and neither is a partially written file.
- Ttqv.TtqvCreator.WriteCalFile: a failing write is one step. The "<map>_png.cal" file that new FileOutputStream creates or truncates before a write throws is not recorded, and neither are partial files or the stream closing in the finally block.
- Ttqv.TtqvCreator.CreateMap: any exception createTiles throws propagates unchanged. The Java signature limits these to MapCreationException, InterruptedException and unchecked exceptions; the model does not restrict them.
- Ttqv.CalLines: no lemma states that the thirty-eight lines carry pairwise distinct keys. KeyTextInjective states only that distinct keys print differently.
- OruxMaps.OruxMapsCreator.FinishLayerCreation: text partly appended before a failing write is not modelled; the file is recorded as emptied. Its writer's stream is never closed (the stream variable stays null). This leak is not modelled, and neither is appendMapContent beyond its empty result.
- prepareOtrk2File writes versionCode "2.1" literally rather than calVersionCode. The model does the same.
- Trivial getters (getLayerMapSources, getName, getStoreName, getTileImageType, getLoaderInfo, iterator, toString) are left out. They are the class's fields.
- Concurrency (the atlas thread) is left out.
- The map-pack loader, the GUI actions, the provider map packs and DummyTileFilter are not part of this model.
- MultiLayerMapSource.MultiLayerSource.GetTileImage: a layer's getTileImage can throw IOException, InterruptedException or TileException. That stops the collecting loop and propagates. Each layer's answer is an Option<Image>, so these exceptions are not modelled.
- MultiLayerMapSource.MultiLayerSource.GetTileData: an IOException from ImageIO.write, which propagates, is not modelled.
- 32-bit int arithmetic is modelled as unbounded integers. This affects the bound pixels (xMax + 1) * tileSize, the map width and height, mapWidth + 511 in ChunkCount, and the TTQV pixel sizes. Overflow for very large tile indices is not modelled.
- Text.ZeroPad2 and Text.IntToString always produce ASCII digits. The map name and the tile file name use String.format without a Locale, which prints the default locale's digits; other locales are not modelled.
- MultiLayerMapSource.MultiLayerSource.GetTileImage and MultiLayerMapSource.MultiLayerSource.GetTileData require mapSpace to be set. Before initialize, Java throws a NullPointerException at mapSpace.getTileSize(); that call order is excluded from the model.
