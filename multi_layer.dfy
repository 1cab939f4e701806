/**
 * A map source made of several layer sources stacked in order. Each layer's tile for a request
 * is given as an optional image (the child's answer); an image is reduced to an identity and a
 * width. The model decides the outcome of a tile request: no tile, one image passed through, or
 * a square canvas filled with the background colour and the present images drawn on it in order.
 */
module MultiLayerMapSource {
  import opened Wrappers
  import opened AtlasModel

  /** A BufferedImage, reduced to an identity and its width in pixels. */
  datatype Image = Image(id: nat, width: int)

  /** What the composite reads from each of its layer sources. */
  datatype LayerSource = LayerSource(name: string, minZoom: int, maxZoom: int, mapSpace: MapSpace)

  datatype Color = Color(red: nat, green: nat, blue: nat)

  /** A tile image type, as far as encoding goes: its file extension. */
  datatype TileImageType = TileImageType(fileExt: string)

  const PNG: TileImageType := TileImageType("png")

  /** The loader information a map pack attaches to a source. */
  datatype LoaderInfo = LoaderInfo(id: nat)

  /** One image drawn over the canvas, scaled to its full size, with the given opacity. */
  datatype Draw = Draw(image: Image, alpha: real, size: int)

  /** The three outcomes of a tile request. */
  datatype TileImage =
    | NoTile
    | Passed(image: Image)
    | Composed(size: int, background: Color, draws: seq<Draw>)

  /** The bytes ImageIO writes for a composed tile, identified by format and image. */
  datatype EncodedTile = EncodedTile(fileExt: string, image: TileImage)

  /** Why initialisation stops: mapSources[0] does not exist, or the map spaces differ. */
  datatype InitError = MissingLayers | DifferentMapSpaces

  function Min(a: int, b: int): int { if a <= b then a else b }

  function Max(a: int, b: int): int { if a >= b then a else b }

  /** The effective minimum zoom after visiting the sources in s: max(0, their minZoom). */
  function MinZoomOf(s: seq<LayerSource>): int
  {
    if s == [] then 0 else Max(MinZoomOf(s[..|s| - 1]), s[|s| - 1].minZoom)
  }

  /** The effective maximum zoom after visiting the sources in s: min(cap, their maxZoom). */
  function MaxZoomOf(cap: int, s: seq<LayerSource>): int
  {
    if s == [] then cap else Min(MaxZoomOf(cap, s[..|s| - 1]), s[|s| - 1].maxZoom)
  }

  /** The minimum zoom of the composite is the least zoom that is at least 0 and at least every
      layer's minimum zoom: the lower end of the intersection of their ranges. */
  lemma {:induction false} MinZoomIsLeastUpperBound(s: seq<LayerSource>)
    ensures MinZoomOf(s) >= 0
    ensures forall i :: 0 <= i < |s| ==> MinZoomOf(s) >= s[i].minZoom
    ensures MinZoomOf(s) == 0 || exists i :: 0 <= i < |s| && MinZoomOf(s) == s[i].minZoom
    decreases |s|
  {
    if s != [] {
      var p := s[..|s| - 1];
      MinZoomIsLeastUpperBound(p);
      assert forall i :: 0 <= i < |p| ==> p[i] == s[i];
    }
  }

  /** The maximum zoom of the composite is the greatest zoom that is at most the cap and at most
      every layer's maximum zoom: the upper end of the intersection of their ranges. */
  lemma {:induction false} MaxZoomIsGreatestLowerBound(cap: int, s: seq<LayerSource>)
    ensures MaxZoomOf(cap, s) <= cap
    ensures forall i :: 0 <= i < |s| ==> MaxZoomOf(cap, s) <= s[i].maxZoom
    ensures MaxZoomOf(cap, s) == cap || exists i :: 0 <= i < |s| && MaxZoomOf(cap, s) == s[i].maxZoom
    decreases |s|
  {
    if s != [] {
      var p := s[..|s| - 1];
      MaxZoomIsGreatestLowerBound(cap, p);
      assert forall i :: 0 <= i < |p| ==> p[i] == s[i];
    }
  }

  /** The index of the first source whose map space differs from ref, or |s| if none does. */
  function FirstMismatch(s: seq<LayerSource>, ref: MapSpace): (k: nat)
    ensures k <= |s|
    ensures forall i :: 0 <= i < k ==> s[i].mapSpace == ref
    ensures k < |s| ==> s[k].mapSpace != ref
  {
    if s == [] then 0
    else if s[0].mapSpace != ref then 0
    else 1 + FirstMismatch(s[1..], ref)
  }

  /** The images of the layers that answered, in layer order (the ArrayList layerImages). */
  function Present(tiles: seq<Option<Image>>): seq<Image>
  {
    if tiles == [] then []
    else Present(tiles[..|tiles| - 1]) + (if tiles[|tiles| - 1].Some? then [tiles[|tiles| - 1].value] else [])
  }

  /** The side of the canvas: the largest of the tile size and the widths of the images. */
  function CanvasSize(tileSize: int, images: seq<Image>): int
  {
    if images == [] then tileSize else Max(CanvasSize(tileSize, images[..|images| - 1]), images[|images| - 1].width)
  }

  /** getLayerAlpha: every layer is drawn fully opaque unless a subclass says otherwise. */
  function LayerAlpha(layerIndex: int): (alpha: real)
    ensures 0.0 <= alpha <= 1.0
  {
    1.0
  }

  /** getBackgroundColor: black. */
  function BackgroundColor(): (c: Color)
    ensures c.red == 0 && c.green == 0 && c.blue == 0
  {
    Color(0, 0, 0)
  }

  /** The drawing operations on a canvas of the given size: image i with the alpha of index i. */
  function DrawPlan(images: seq<Image>, size: int): (d: seq<Draw>)
    ensures |d| == |images|
  {
    seq(|images|, i requires 0 <= i < |images| => Draw(images[i], LayerAlpha(i), size))
  }

  /** The outcome of getTileImage, given every layer's answer for the tile. */
  function ComposeTile(tileSize: int, tiles: seq<Option<Image>>): TileImage
  {
    var images := Present(tiles);
    if |images| == 1 then Passed(images[0])
    else if |images| > 1 then
      var size := CanvasSize(tileSize, images);
      Composed(size, BackgroundColor(), DrawPlan(images, size))
    else NoTile
  }

  /** getTileData: no bytes for no tile, otherwise the image written in the source's format. */
  function EncodeTile(tileType: TileImageType, image: TileImage): (data: Option<EncodedTile>)
    ensures data.None? <==> image.NoTile?
    ensures data.Some? ==> data.value.image == image && data.value.fileExt == tileType.fileExt
  {
    if image.NoTile? then None else Some(EncodedTile(tileType.fileExt, image))
  }

  lemma {:induction false} PresentAppend(a: seq<Option<Image>>, b: seq<Option<Image>>)
    ensures Present(a + b) == Present(a) + Present(b)
    decreases |b|
  {
    if b == [] {
      assert a + b == a;
    } else {
      var b' := b[..|b| - 1];
      assert (a + b)[..|a + b| - 1] == a + b';
      PresentAppend(a, b');
    }
  }

  /** No layer image is present exactly when every layer answered null. */
  lemma {:induction false} PresentEmptyIffAllAbsent(tiles: seq<Option<Image>>)
    ensures Present(tiles) == [] <==> forall i :: 0 <= i < |tiles| ==> tiles[i].None?
    decreases |tiles|
  {
    if tiles != [] {
      var p := tiles[..|tiles| - 1];
      PresentEmptyIffAllAbsent(p);
      assert forall i :: 0 <= i < |p| ==> p[i] == tiles[i];
    }
  }

  /** The position of layer i's image among the present images: how many layers before i answered. */
  function Rank(tiles: seq<Option<Image>>, i: nat): nat
    requires i <= |tiles|
  {
    |Present(tiles[..i])|
  }

  /** The image of a layer that answered stands at its rank in the present images, and a later
      answering layer has a greater rank. */
  lemma PresentAtRank(tiles: seq<Option<Image>>, i: nat)
    requires i < |tiles| && tiles[i].Some?
    ensures Rank(tiles, i) < |Present(tiles)|
    ensures Present(tiles)[Rank(tiles, i)] == tiles[i].value
    ensures Rank(tiles, i + 1) == Rank(tiles, i) + 1
  {
    assert tiles == tiles[..i] + [tiles[i]] + tiles[i + 1..];
    PresentAppend(tiles[..i] + [tiles[i]], tiles[i + 1..]);
    PresentAppend(tiles[..i], [tiles[i]]);
    assert Present([tiles[i]]) == [tiles[i].value] by {
      assert [tiles[i]][..0] == [];
    }
    assert tiles[..i + 1] == tiles[..i] + [tiles[i]];
  }

  /** A layer that answered null adds no image: the layers after it keep the same rank. */
  lemma AbsentLayerKeepsRank(tiles: seq<Option<Image>>, i: nat)
    requires i < |tiles| && tiles[i].None?
    ensures Rank(tiles, i + 1) == Rank(tiles, i)
  {
    assert tiles[..i + 1] == tiles[..i] + [tiles[i]];
    PresentAppend(tiles[..i], [tiles[i]]);
    assert [tiles[i]][..0] == [];
  }

  /** Each present image is the image of an answering layer whose rank is its position, so the
      present images hold nothing but the answers of the answering layers. */
  lemma {:induction false} PresentFromAnsweringLayer(tiles: seq<Option<Image>>, k: nat)
    requires k < |Present(tiles)|
    ensures exists i :: 0 <= i < |tiles| && tiles[i].Some? && Rank(tiles, i) == k && Present(tiles)[k] == tiles[i].value
    decreases |tiles|
  {
    var n := |tiles| - 1;
    var p := tiles[..n];
    assert tiles[..n] == p;
    if k < |Present(p)| {
      PresentFromAnsweringLayer(p, k);
      var i :| 0 <= i < |p| && p[i].Some? && Rank(p, i) == k && Present(p)[k] == p[i].value;
      assert tiles[..i] == p[..i];
      assert tiles[i] == p[i];
    } else {
      assert tiles[n].Some?;
      assert Rank(tiles, n) == k;
    }
  }

  lemma {:induction false} RankMonotone(tiles: seq<Option<Image>>, i: nat, j: nat)
    requires i <= j <= |tiles|
    ensures Rank(tiles, i) <= Rank(tiles, j)
  {
    assert tiles[..j] == tiles[..i] + tiles[i..j];
    PresentAppend(tiles[..i], tiles[i..j]);
  }

  /** getTileImage answers no tile exactly when no layer returned an image. */
  lemma NoTileIffNoLayerImage(tileSize: int, tiles: seq<Option<Image>>)
    ensures ComposeTile(tileSize, tiles) == NoTile <==> forall i :: 0 <= i < |tiles| ==> tiles[i].None?
  {
    PresentEmptyIffAllAbsent(tiles);
  }

  /** When exactly one layer returns an image, that very image is the answer: no canvas, no
      background, no scaling. */
  lemma SingleImagePassedThrough(tileSize: int, tiles: seq<Option<Image>>, i: nat)
    requires i < |tiles| && tiles[i].Some?
    requires forall j :: 0 <= j < |tiles| && j != i ==> tiles[j].None?
    ensures ComposeTile(tileSize, tiles) == Passed(tiles[i].value)
  {
    PresentAtRank(tiles, i);
    PresentEmptyIffAllAbsent(tiles[..i]);
    PresentEmptyIffAllAbsent(tiles[i + 1..]);
    assert tiles == tiles[..i + 1] + tiles[i + 1..];
    PresentAppend(tiles[..i + 1], tiles[i + 1..]);
  }

  /** The canvas side is the least size that is at least the tile size and every image's width. */
  lemma {:induction false} CanvasSizeIsMaximum(tileSize: int, images: seq<Image>)
    ensures CanvasSize(tileSize, images) >= tileSize
    ensures forall k :: 0 <= k < |images| ==> CanvasSize(tileSize, images) >= images[k].width
    ensures CanvasSize(tileSize, images) == tileSize ||
            exists k :: 0 <= k < |images| && CanvasSize(tileSize, images) == images[k].width
    decreases |images|
  {
    if images != [] {
      var p := images[..|images| - 1];
      CanvasSizeIsMaximum(tileSize, p);
      assert forall k :: 0 <= k < |p| ==> p[k] == images[k];
    }
  }

  /** With two or more images, every present image is drawn, in layer order, scaled to the canvas,
      and the alpha it is drawn with is that of its rank among the present images. */
  lemma CompositeDrawsInLayerOrder(tileSize: int, tiles: seq<Option<Image>>, i: nat)
    requires |Present(tiles)| >= 2
    requires i < |tiles| && tiles[i].Some?
    ensures ComposeTile(tileSize, tiles).Composed?
    ensures var t := ComposeTile(tileSize, tiles);
      t.background == BackgroundColor() &&
      |t.draws| == |Present(tiles)| &&
      Rank(tiles, i) < |t.draws| &&
      t.draws[Rank(tiles, i)] == Draw(tiles[i].value, LayerAlpha(Rank(tiles, i)), t.size)
  {
    PresentAtRank(tiles, i);
  }

  /** Of two answering layers, the earlier one is drawn first (painted under the later one). */
  lemma EarlierLayerDrawnFirst(tiles: seq<Option<Image>>, i: nat, j: nat)
    requires i < j < |tiles| && tiles[i].Some? && tiles[j].Some?
    ensures Rank(tiles, i) < Rank(tiles, j)
  {
    PresentAtRank(tiles, i);
    RankMonotone(tiles, i + 1, j);
  }

  /** A composite map source over an ordered list of layer sources. */
  class MultiLayerSource {
    const name: string
    const tileType: TileImageType
    const mapSources: seq<LayerSource>
    var maxZoom: int
    var minZoom: int
    var mapSpace: Option<MapSpace>
    var loaderInfo: Option<LoaderInfo>

    constructor(name: string, tileType: TileImageType, mapSources: seq<LayerSource>)
      ensures this.name == name && this.tileType == tileType && this.mapSources == mapSources
      ensures maxZoom == 0 && minZoom == 0 && mapSpace == None && loaderInfo == None
    {
      this.name := name;
      this.tileType := tileType;
      this.mapSources := mapSources;
      maxZoom := 0;
      minZoom := 0;
      mapSpace := None;
      loaderInfo := None;
    }

    /**
     * initializeValues: the zoom window is the intersection of the layers' ranges with
     * [0, previewMaxZoom], and every layer must share the first layer's map space. The check
     * follows the zoom update of the same layer, so a failure leaves the window of the layers
     * up to and including the first mismatching one.
     */
    method InitializeValues(previewMaxZoom: int) returns (r: Result<(), InitError>)
      modifies this`maxZoom, this`minZoom, this`mapSpace
      ensures mapSources == [] ==> r == Err(MissingLayers) && unchanged(this)
      ensures mapSources != [] ==>
        var k := FirstMismatch(mapSources, mapSources[0].mapSpace);
        var visited := if k < |mapSources| then k + 1 else k;
        && mapSpace == Some(mapSources[0].mapSpace)
        && (r.Ok? <==> k == |mapSources|)
        && (r.Err? ==> r.error == DifferentMapSpaces)
        && minZoom == MinZoomOf(mapSources[..visited])
        && maxZoom == MaxZoomOf(previewMaxZoom, mapSources[..visited])
    {
      if |mapSources| == 0 {
        return Err(MissingLayers);
      }
      var ref := mapSources[0].mapSpace;
      mapSpace := Some(ref);
      maxZoom := previewMaxZoom;
      minZoom := 0;
      var i := 0;
      while i < |mapSources|
        invariant 0 <= i <= |mapSources|
        invariant mapSpace == Some(ref)
        invariant forall j :: 0 <= j < i ==> mapSources[j].mapSpace == ref
        invariant minZoom == MinZoomOf(mapSources[..i])
        invariant maxZoom == MaxZoomOf(previewMaxZoom, mapSources[..i])
      {
        var ms := mapSources[i];
        assert mapSources[..i + 1][..i] == mapSources[..i];
        maxZoom := Min(maxZoom, ms.maxZoom);
        minZoom := Max(minZoom, ms.minZoom);
        if ms.mapSpace != ref {
          return Err(DifferentMapSpaces);
        }
        i := i + 1;
      }
      assert mapSources[..i] == mapSources;
      r := Ok(());
    }

    /**
     * initialize: the same zoom window over all layers (after initialising each layer, which is
     * outside this model), with no map-space check.
     */
    method Initialize(previewMaxZoom: int) returns (r: Result<(), InitError>)
      modifies this`maxZoom, this`minZoom, this`mapSpace
      ensures mapSources == [] ==> r == Err(MissingLayers) && unchanged(this)
      ensures mapSources != [] ==>
        && r.Ok?
        && mapSpace == Some(mapSources[0].mapSpace)
        && minZoom == MinZoomOf(mapSources)
        && maxZoom == MaxZoomOf(previewMaxZoom, mapSources)
    {
      if |mapSources| == 0 {
        return Err(MissingLayers);
      }
      mapSpace := Some(mapSources[0].mapSpace);
      maxZoom := previewMaxZoom;
      minZoom := 0;
      for i := 0 to |mapSources|
        invariant mapSpace == Some(mapSources[0].mapSpace)
        invariant minZoom == MinZoomOf(mapSources[..i])
        invariant maxZoom == MaxZoomOf(previewMaxZoom, mapSources[..i])
      {
        var ms := mapSources[i];
        assert mapSources[..i + 1][..i] == mapSources[..i];
        maxZoom := Min(maxZoom, ms.maxZoom);
        minZoom := Max(minZoom, ms.minZoom);
      }
      assert mapSources[..|mapSources|] == mapSources;
      r := Ok(());
    }

    /**
     * getTileImage, given each layer's answer for the requested tile: collect the present images
     * and their largest width, then pass a single image through or draw them all on a canvas.
     */
    method GetTileImage(layerTiles: seq<Option<Image>>) returns (image: TileImage)
      requires mapSpace.Some? && |layerTiles| == |mapSources|
      ensures image == ComposeTile(mapSpace.value.tileSize, layerTiles)
    {
      var layerImages: seq<Image> := [];
      var maxSize := mapSpace.value.tileSize;
      var i := 0;
      while i < |layerTiles|
        invariant 0 <= i <= |layerTiles|
        invariant layerImages == Present(layerTiles[..i])
        invariant maxSize == CanvasSize(mapSpace.value.tileSize, layerImages)
      {
        var layerImage := layerTiles[i];
        assert layerTiles[..i + 1][..i] == layerTiles[..i];
        if layerImage.Some? {
          assert (layerImages + [layerImage.value])[..|layerImages|] == layerImages;
          layerImages := layerImages + [layerImage.value];
          var size := layerImage.value.width;
          if size > maxSize {
            maxSize := size;
          }
        }
        i := i + 1;
      }
      assert layerTiles[..i] == layerTiles;
      if |layerImages| == 1 {
        image := Passed(layerImages[0]);
      } else if |layerImages| > 1 {
        var draws: seq<Draw> := [];
        var k := 0;
        while k < |layerImages|
          invariant 0 <= k <= |layerImages|
          invariant |draws| == k
          invariant forall j :: 0 <= j < k ==> draws[j] == Draw(layerImages[j], LayerAlpha(j), maxSize)
        {
          draws := draws + [Draw(layerImages[k], LayerAlpha(k), maxSize)];
          k := k + 1;
        }
        assert draws == DrawPlan(layerImages, maxSize);
        image := Composed(maxSize, BackgroundColor(), draws);
      } else {
        image := NoTile;
      }
    }

    /** getTileData: null exactly when getTileImage is null, else the encoded image. */
    method GetTileData(layerTiles: seq<Option<Image>>) returns (data: Option<EncodedTile>)
      requires mapSpace.Some? && |layerTiles| == |mapSources|
      ensures data.None? <==> forall i :: 0 <= i < |layerTiles| ==> layerTiles[i].None?
      ensures data == EncodeTile(tileType, ComposeTile(mapSpace.value.tileSize, layerTiles))
    {
      var image := GetTileImage(layerTiles);
      NoTileIffNoLayerImage(mapSpace.value.tileSize, layerTiles);
      if image.NoTile? {
        return None;
      }
      data := Some(EncodedTile(tileType.fileExt, image));
    }

    /** setLoaderInfo: the loader information can be set once; a second call throws. */
    method SetLoaderInfo(info: Option<LoaderInfo>) returns (r: Result<(), string>)
      modifies this`loaderInfo
      ensures r.Ok? <==> old(loaderInfo).None?
      ensures r.Err? ==> r.error == "LoaderInfo already set"
      ensures loaderInfo == if old(loaderInfo).None? then info else old(loaderInfo)
    {
      if loaderInfo.Some? {
        return Err("LoaderInfo already set");
      }
      loaderInfo := info;
      r := Ok(());
    }
  }
}
