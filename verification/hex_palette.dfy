/** The palette selection of the Hono `/api/og` route. Its catalog is
    fetched on every request (no memo) and keeps each dye's `hex` string;
    a custom token takes precedence over a palette token, every slot is
    passed through `saneHex` with `#777777` in its place when that fails,
    and with no usable token the colours are `#222222/#888888/#eeeeee`.
    Three reads in the route are unguarded (`dataC.p.rgb`, `dataC.s[i]`,
    `dataP.s[i]`); when one of them meets a missing value the route throws,
    which the model returns as `None`. */
module HexPalette {
  import opened Wrappers
  import opened Hex
  import opened Token
  import opened Catalog
  import RgbPalette

  /** The catalog of this variant: the `hex` field of each dye, which may
      be absent. */
  type HexCatalog = Catalog<Option<string>>

  const Fallback: string := "#777777"
  const NoTokenColors: seq<string> := ["#222222", "#888888", "#eeeeee"]

  /** `p ? decodeParam(p) : null`. */
  function DecodeIfPresent(raw: Option<string>, codec: Codec): (r: Option<Json>)
    ensures r == DecodeParam(raw, codec)
  {
    if Truthy(raw) then DecodeParam(raw, codec) else None
  }

  predicate IsCustomToken(d: Option<Json>) {
    IsToken(d) && d.value.p.IsCustom()
  }

  /** `saneHex(e?.hex) ?? '#777777'` for the entry `catalog[key]`; a key
      that is not a string never names an entry. */
  function CatalogSlot(key: Option<string>, catalog: HexCatalog): (r: string)
    ensures IsSaneColor(r)
    ensures key.None? || key.value !in catalog ==> r == Fallback
    ensures key.Some? && key.value in catalog && SaneHex(catalog[key.value].color).Some? ==>
      r == SaneHex(catalog[key.value].color).value
  {
    if key.Some? && key.value in catalog then
      SaneHexIdempotent(catalog[key.value].color);
      SaneHex(catalog[key.value].color).GetOr(Fallback)
    else
      Fallback
  }

  /** `catalog[dataP.p]`: only a string `p` can name an entry. */
  function PrimaryKey(p: Primary): Option<string> {
    if p.PrimaryId? then Some(p.id) else None
  }

  /** The route throws: the custom branch reads `p.rgb` and `s` without a
      guard, the palette branch reads `s` without a guard. */
  predicate Throws(dataP: Option<Json>, dataC: Option<Json>) {
    if IsCustomToken(dataC) then dataC.value.p.rgb.None? || dataC.value.s.None?
    else IsToken(dataP) && dataP.value.s.None?
  }

  /** The three-way colour selection, given both decoded tokens and the
      catalog. */
  function SelectColors(dataP: Option<Json>, dataC: Option<Json>, catalog: HexCatalog): (r: Option<seq<string>>)
    ensures r.None? <==> Throws(dataP, dataC)
    ensures r.Some? ==> |r.value| == 3 && forall k :: 0 <= k < 3 ==> IsSaneColor(r.value[k])
    ensures !IsCustomToken(dataC) && IsToken(dataP) && r.Some? ==>
      r.value[0] == CatalogSlot(PrimaryKey(dataP.value.p), catalog)
  {
    if IsCustomToken(dataC) then
      var t := dataC.value;
      if t.p.rgb.None? || t.s.None? then
        None
      else
        var baseHex := ToHex(t.p.rgb.value);
        SaneHexIdempotent(Some(baseHex));
        Some([SaneHex(Some(baseHex)).GetOr(Fallback),
              CatalogSlot(RgbPalette.SecondaryAt(t.s, 0), catalog),
              CatalogSlot(RgbPalette.SecondaryAt(t.s, 1), catalog)])
    else if IsToken(dataP) then
      var t := dataP.value;
      if t.s.None? then
        None
      else
        Some([CatalogSlot(PrimaryKey(t.p), catalog),
              CatalogSlot(RgbPalette.SecondaryAt(t.s, 0), catalog),
              CatalogSlot(RgbPalette.SecondaryAt(t.s, 1), catalog)])
    else
      Some(NoTokenColors)
  }

  /** The colours of `/api/og`: both parameters are decoded, the catalog is
      whatever this request's fetch produced. */
  function ApiOgColors(palette: Option<string>, custom: Option<string>, codec: Codec,
                       fetch: FetchOutcome<Option<string>>): (r: Option<seq<string>>)
    ensures r == SelectColors(DecodeParam(palette, codec), DecodeParam(custom, codec), CatalogOf(fetch))
  {
    SelectColors(DecodeIfPresent(palette, codec), DecodeIfPresent(custom, codec), CatalogOf(fetch))
  }

  /** A custom token decides the colours whatever `palette` holds. */
  lemma CustomTakesPrecedence(p1: Option<string>, p2: Option<string>, custom: Option<string>,
                              codec: Codec, fetch: FetchOutcome<Option<string>>)
    requires IsCustomToken(DecodeParam(custom, codec))
    ensures ApiOgColors(p1, custom, codec, fetch) == ApiOgColors(p2, custom, codec, fetch)
  {
  }

  /** With no custom token and no palette token the colours are the fixed
      dark-to-light trio; the fetch outcome plays no part. */
  lemma NoTokenColorsWhenNothingDecodes(palette: Option<string>, custom: Option<string>, codec: Codec,
                                        fetch: FetchOutcome<Option<string>>)
    requires !IsCustomToken(DecodeParam(custom, codec)) && !IsToken(DecodeParam(palette, codec))
    ensures ApiOgColors(palette, custom, codec, fetch) == Some(NoTokenColors)
  {
  }

  /** The custom primary is `toHex(p.rgb)` exactly when every channel is a
      byte; any other channel value turns it into the fallback. */
  lemma CustomPrimaryColor(dataP: Option<Json>, dataC: Option<Json>, catalog: HexCatalog)
    requires IsCustomToken(dataC) && !Throws(dataP, dataC)
    ensures var rgb := dataC.value.p.rgb.value;
      SelectColors(dataP, dataC, catalog).value[0] == if InByteRange(rgb) then ToHex(rgb) else Fallback
  {
    SaneHexOfToHex(dataC.value.p.rgb.value);
  }

  /** Each secondary slot depends only on its own id and the catalog, in
      either branch; the other slots do not influence it. */
  lemma SecondarySlots(dataP: Option<Json>, dataC: Option<Json>, catalog: HexCatalog)
    requires !Throws(dataP, dataC) && (IsCustomToken(dataC) || IsToken(dataP))
    ensures var t := if IsCustomToken(dataC) then dataC.value else dataP.value;
      var r := SelectColors(dataP, dataC, catalog).value;
      && r[1] == CatalogSlot(RgbPalette.SecondaryAt(t.s, 0), catalog)
      && r[2] == CatalogSlot(RgbPalette.SecondaryAt(t.s, 1), catalog)
  {
  }

  /** A slot whose entry is missing, or whose `hex` fails `saneHex`, shows
      the fallback. */
  lemma MissingOrInvalidEntryFallsBack(key: Option<string>, catalog: HexCatalog)
    requires key.None? || key.value !in catalog || SaneHex(catalog[key.value].color).None?
    ensures CatalogSlot(key, catalog) == Fallback
  {
  }
}
