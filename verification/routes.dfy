/** The image routes end to end: token → colours → image and headers. The
    worker (`/og/:data`) and the Next route (`GET` with `palette` or
    `custom-palette`) catch a renderer fault and answer with the error card;
    the Hono route (`/api/og`) has no such guard. A renderer fault is an
    explicit input. */
module Routes {
  import opened Wrappers
  import opened Token
  import opened Catalog
  import opened Host
  import opened Layout
  import RgbPalette
  import HexPalette

  datatype ImageResponse = ImageResponse(image: Image, cacheControl: string, status: nat)

  /** A response and the catalog cache it leaves behind. */
  datatype OgStep = OgStep(response: ImageResponse, cache: Option<RgbPalette.RgbCatalog>)

  /** The worker's `/og/:data`. */
  function WorkerOg(data: string, header: Option<string>, codec: Codec,
                    cache: Option<RgbPalette.RgbCatalog>, fetch: FetchOutcome<Hex.Rgb>,
                    renderFails: bool): (r: OgStep)
    ensures r.response.status == 200
    ensures r.cache == RgbPalette.ExtractColors(Some(data), codec, cache, fetch).cache
    ensures renderFails ==> r.response.image.ErrorCard? && r.response.cacheControl == NoCache
    ensures r.response.image.width == 1200 && r.response.image.height == 630
    ensures !renderFails ==>
      && Fills(r.response.image) == RgbPalette.ExtractColors(Some(data), codec, cache, fetch).colors
      && r.response.cacheControl == ImageCache(header)
      && r.response.image.GoldenRow?
      && r.response.image.main.weight == 618
      && r.response.image.side[0].weight == 236 && r.response.image.side[1].weight == 146
  {
    var colors := RgbPalette.ExtractColors(Some(data), codec, cache, fetch);
    var response :=
      if renderFails then ImageResponse(ErrorImage(1200, 630), NoCache, 200)
      else ImageResponse(GoldenSplit(colors.colors), ImageCache(header), 200);
    OgStep(response, colors.cache)
  }

  /** The Next image route. */
  function NextOg(palette: Option<string>, custom: Option<string>, header: Option<string>, codec: Codec,
                  cache: Option<RgbPalette.RgbCatalog>, fetch: FetchOutcome<Hex.Rgb>,
                  renderFails: bool): (r: OgStep)
    ensures r.response.status == 200
    ensures r.cache == RgbPalette.NextOgColors(palette, custom, codec, cache, fetch).cache
    ensures renderFails ==> r.response.image.ErrorCard? && r.response.cacheControl == NoCache
    ensures r.response.image.width == 800 && r.response.image.height == 800
    ensures !renderFails ==>
      && Fills(r.response.image) == RgbPalette.NextOgColors(palette, custom, codec, cache, fetch).colors
      && r.response.cacheControl == ImageCache(header)
      && r.response.image.Column? && |r.response.image.bands| == 3
      && r.response.image.bands[0].weight == 3 * r.response.image.bands[2].weight
      && r.response.image.bands[1].weight == 2 * r.response.image.bands[2].weight
  {
    var colors := RgbPalette.NextOgColors(palette, custom, codec, cache, fetch);
    var response :=
      if renderFails then ImageResponse(ErrorImage(800, 800), NoCache, 200)
      else ImageResponse(VerticalThirds(colors.colors), ImageCache(header), 200);
    OgStep(response, colors.cache)
  }

  /** The Hono `/api/og`: `None` when the handler throws (an unguarded read
      or a renderer fault), which this route does not catch. */
  function HonoOg(palette: Option<string>, custom: Option<string>, header: Option<string>, codec: Codec,
                  fetch: FetchOutcome<Option<string>>, renderFails: bool): (r: Option<ImageResponse>)
    ensures r.Some? <==> !renderFails && HexPalette.ApiOgColors(palette, custom, codec, fetch).Some?
    ensures r.Some? ==>
      && Fills(r.value.image) == HexPalette.ApiOgColors(palette, custom, codec, fetch).value
      && r.value.cacheControl == ApiImageCache(header)
      && r.value.status == 200
      && r.value.image.Column? && r.value.image.width == 800 && r.value.image.height == 800
      && |r.value.image.bands| == 3
      && r.value.image.bands[0].weight == 5 * r.value.image.bands[2].weight
      && 2 * r.value.image.bands[1].weight == 5 * r.value.image.bands[2].weight
  {
    var colors := HexPalette.ApiOgColors(palette, custom, codec, fetch);
    if renderFails || colors.None? then None
    else Some(ImageResponse(HonoColumn(colors.value), ApiImageCache(header), 200))
  }

  /** With no token the Next route paints the fixed defaults, top to bottom,
      without touching the catalog. */
  lemma NextOgWithoutToken(header: Option<string>, codec: Codec,
                           cache: Option<RgbPalette.RgbCatalog>, fetch: FetchOutcome<Hex.Rgb>)
    ensures var r := NextOg(None, None, header, codec, cache, fetch, false);
      Fills(r.response.image) == ["#ffffff", "#666666", "#000000"] && r.cache == cache
  {
  }
}
