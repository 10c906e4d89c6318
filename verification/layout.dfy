/** The colour-to-region assignment of the preview images. Rendering is
    left to the rasteriser; what the routes fix is the canvas, the regions
    and which slot fills which region. Flex weights are scaled to
    integers: 61.8 / 38.2 / 23.6 / 14.6 become 618 / 382 / 236 / 146, and
    5 / 2.5 / 1 become 10 / 5 / 2. */
module Layout {

  /** A solid-filled flex child. */
  datatype Band = Band(color: string, weight: nat)

  datatype Image =
      /** Bands stacked top to bottom. */
    | Column(width: nat, height: nat, bands: seq<Band>)
      /** A left band beside a column of bands weighted `sideWeight`. */
    | GoldenRow(width: nat, height: nat, main: Band, sideWeight: nat, side: seq<Band>)
      /** The static error card: one background and one title line. */
    | ErrorCard(width: nat, height: nat, background: string, title: string)

  function BandColors(bands: seq<Band>): (cs: seq<string>)
    ensures |cs| == |bands|
    ensures forall i :: 0 <= i < |bands| ==> cs[i] == bands[i].color
  {
    seq(|bands|, i requires 0 <= i < |bands| => bands[i].color)
  }

  /** The fill colours in document order (top or left first). */
  function Fills(img: Image): seq<string> {
    match img
    case Column(_, _, bands) => BandColors(bands)
    case GoldenRow(_, _, main, _, side) => [main.color] + BandColors(side)
    case ErrorCard(_, _, _, _) => []
  }

  /** Each band is strictly heavier than the one after it. */
  predicate Decreasing(bands: seq<Band>) {
    forall i, j :: 0 <= i < j < |bands| ==> bands[i].weight > bands[j].weight
  }

  const ErrorBackground := "#1a1a1a"
  const ErrorTitle := "FFXIV Colorant Picker"

  /** The Next route's image: three bands weighted 3, 2, 1 on 800×800. */
  function VerticalThirds(colors: seq<string>): (img: Image)
    requires |colors| == 3
    ensures img.Column? && img.width == 800 && img.height == 800
    ensures Fills(img) == colors
    ensures Decreasing(img.bands)
    ensures img.bands[2].weight > 0
    ensures img.bands[0].weight == 3 * img.bands[2].weight && img.bands[1].weight == 2 * img.bands[2].weight
  {
    Column(800, 800, [Band(colors[0], 3), Band(colors[1], 2), Band(colors[2], 1)])
  }

  /** The Hono route's image: three bands weighted 5, 2.5, 1 on 800×800. */
  function HonoColumn(colors: seq<string>): (img: Image)
    requires |colors| == 3
    ensures img.Column? && img.width == 800 && img.height == 800
    ensures Fills(img) == colors
    ensures Decreasing(img.bands)
    ensures img.bands[2].weight > 0
    ensures img.bands[0].weight == 5 * img.bands[2].weight && 2 * img.bands[1].weight == 5 * img.bands[2].weight
  {
    Column(800, 800, [Band(colors[0], 10), Band(colors[1], 5), Band(colors[2], 2)])
  }

  /** The worker's image on 1200×630: the primary on the left (61.8), the
      secondaries stacked on the right (23.6 over 14.6). */
  function GoldenSplit(colors: seq<string>): (img: Image)
    requires |colors| == 3
    ensures img.GoldenRow? && img.width == 1200 && img.height == 630
    ensures Fills(img) == colors
    ensures Decreasing([img.main, Band("", img.sideWeight)]) && Decreasing(img.side)
    ensures |img.side| == 2 && img.sideWeight == img.side[0].weight + img.side[1].weight
    ensures img.main.weight + img.sideWeight == 1000
    ensures img.main.weight == 618 && img.side[0].weight == 236 && img.side[1].weight == 146
  {
    GoldenRow(1200, 630, Band(colors[0], 618), 382, [Band(colors[1], 236), Band(colors[2], 146)])
  }

  /** The error card of the worker (1200×630) and of the Next route (800×800). */
  function ErrorImage(width: nat, height: nat): (img: Image)
    ensures Fills(img) == []
  {
    ErrorCard(width, height, ErrorBackground, ErrorTitle)
  }
}
