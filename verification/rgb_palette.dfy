/** The palette resolver of the worker (`extractColors`) and of the Next
    image route (the same code inline in `GET`): three slots start at
    `#ffffff`, `#666666`, `#000000` and each is overwritten independently
    from the decoded token and the memoised catalog of RGB dyes. */
module RgbPalette {
  import opened Wrappers
  import opened Hex
  import opened Token
  import opened Catalog

  type RgbCatalog = Catalog<Rgb>

  const Defaults: seq<string> := ["#ffffff", "#666666", "#000000"]

  /** `data.s?.[i]`: the i-th secondary id, absent when `s` is missing or short. */
  function SecondaryAt(s: Option<seq<Option<string>>>, i: nat): Option<string> {
    if s.Some? && i < |s.value| then s.value[i] else None
  }

  /** `data.s?.[i] && dyes[data.s[i]]`: an id names a dye only when it is a
      non-empty string (empty is falsy) present in the catalog. */
  predicate NamesDye(id: Option<string>, dyes: RgbCatalog) {
    Truthy(id) && id.value in dyes
  }

  /** The slot assignments of the resolver: start from the defaults and
      overwrite each slot on its own condition. */
  function ResolveSlots(p: Primary, s: Option<seq<Option<string>>>, dyes: RgbCatalog): (colors: seq<string>)
    ensures |colors| == 3
    ensures colors[0] ==
      if p.PrimaryId? && p.id in dyes then ToHex(dyes[p.id].color)
      else if p.IsCustom() && p.rgb.Some? then ToHex(p.rgb.value)
      else Defaults[0]
    ensures forall k :: 0 <= k < 2 ==>
      colors[k + 1] == if NamesDye(SecondaryAt(s, k), dyes) then ToHex(dyes[SecondaryAt(s, k).value].color) else Defaults[k + 1]
  {
    var colors := Defaults;
    var colors :=
      if p.PrimaryId? && p.id in dyes then colors[0 := ToHex(dyes[p.id].color)]
      else if p.IsCustom() && p.rgb.Some? then colors[0 := ToHex(p.rgb.value)]
      else colors;
    var s0 := SecondaryAt(s, 0);
    var colors := if NamesDye(s0, dyes) then colors[1 := ToHex(dyes[s0.value].color)] else colors;
    var s1 := SecondaryAt(s, 1);
    var colors := if NamesDye(s1, dyes) then colors[2 := ToHex(dyes[s1.value].color)] else colors;
    colors
  }

  /** Result of resolving one request's colours: the colours, the catalog
      cache afterwards and whether `getDyes` went to the network. */
  datatype ColorsStep = ColorsStep(colors: seq<string>, cache: Option<RgbCatalog>, fetched: bool)

  /** Everything after `decodeParam`: a value that is not a token keeps the
      defaults and never touches the catalog; a token loads the catalog
      through the memo and resolves the slots. */
  function ColorsFromDecoded(data: Option<Json>, cache: Option<RgbCatalog>, fetch: FetchOutcome<Rgb>): (r: ColorsStep)
    ensures |r.colors| == 3
    ensures !IsToken(data) ==> r == ColorsStep(Defaults, cache, false)
    ensures IsToken(data) ==> r.fetched == cache.None? && r.cache == GetDyes(cache, fetch).cache
    ensures IsToken(data) ==> r.colors == ResolveSlots(data.value.p, data.value.s, GetDyes(cache, fetch).catalog)
  {
    if !IsToken(data) then
      ColorsStep(Defaults, cache, false)
    else
      var step := GetDyes(cache, fetch);
      ColorsStep(ResolveSlots(data.value.p, data.value.s, step.catalog), step.cache, step.fetched)
  }

  /** `extractColors`. The early return for an absent or empty token is
      subsumed by the gate: the result depends only on what `decodeParam`
      yields. */
  function ExtractColors(raw: Option<string>, codec: Codec, cache: Option<RgbCatalog>, fetch: FetchOutcome<Rgb>): (r: ColorsStep)
    ensures r == ColorsFromDecoded(DecodeParam(raw, codec), cache, fetch)
  {
    if !Truthy(raw) then ColorsStep(Defaults, cache, false)
    else ColorsFromDecoded(DecodeParam(raw, codec), cache, fetch)
  }

  /** The Next image route: the token is `palette || custom-palette`, and
      with neither present the defaults stand. */
  function NextOgColors(palette: Option<string>, custom: Option<string>, codec: Codec,
                        cache: Option<RgbCatalog>, fetch: FetchOutcome<Rgb>): (r: ColorsStep)
    ensures |r.colors| == 3
    ensures !Truthy(palette) && !Truthy(custom) ==> r == ColorsStep(Defaults, cache, false)
  {
    if Truthy(palette) || Truthy(custom) then
      ColorsFromDecoded(DecodeParam(Or(palette, custom), codec), cache, fetch)
    else
      ColorsStep(Defaults, cache, false)
  }

  /** An absent, empty or undecodable token gives exactly the defaults and
      leaves the catalog cache untouched, with no fetch. */
  lemma UndecodableTokenKeepsDefaults(raw: Option<string>, codec: Codec, cache: Option<RgbCatalog>, fetch: FetchOutcome<Rgb>)
    requires !IsToken(DecodeParam(raw, codec))
    ensures ExtractColors(raw, codec, cache, fetch) == ColorsStep(Defaults, cache, false)
  {
  }

  /** The Next route's inline resolution is `extractColors` applied to the
      chosen parameter `palette || custom-palette`. */
  lemma NextOgIsExtractOfChosen(palette: Option<string>, custom: Option<string>, codec: Codec,
                                cache: Option<RgbCatalog>, fetch: FetchOutcome<Rgb>)
    ensures NextOgColors(palette, custom, codec, cache, fetch) == ExtractColors(Or(palette, custom), codec, cache, fetch)
  {
  }

  /** A non-empty `palette` is chosen even when it fails to decode:
      `custom-palette` is then never consulted. */
  lemma PaletteShadowsCustom(palette: Option<string>, c1: Option<string>, c2: Option<string>, codec: Codec,
                             cache: Option<RgbCatalog>, fetch: FetchOutcome<Rgb>)
    requires Truthy(palette)
    ensures NextOgColors(palette, c1, codec, cache, fetch) == NextOgColors(palette, c2, codec, cache, fetch)
    ensures !IsToken(DecodeParam(palette, codec)) ==> NextOgColors(palette, c1, codec, cache, fetch).colors == Defaults
  {
  }

  /** Slot independence: the primary depends only on `p`, `colors[1]` only
      on `s[0]` and `colors[2]` only on `s[1]` (with the catalog). */
  lemma SlotsAreIndependent(p1: Primary, s1: Option<seq<Option<string>>>,
                            p2: Primary, s2: Option<seq<Option<string>>>, dyes: RgbCatalog)
    ensures p1 == p2 ==> ResolveSlots(p1, s1, dyes)[0] == ResolveSlots(p2, s2, dyes)[0]
    ensures SecondaryAt(s1, 0) == SecondaryAt(s2, 0) ==> ResolveSlots(p1, s1, dyes)[1] == ResolveSlots(p2, s2, dyes)[1]
    ensures SecondaryAt(s1, 1) == SecondaryAt(s2, 1) ==> ResolveSlots(p1, s1, dyes)[2] == ResolveSlots(p2, s2, dyes)[2]
  {
  }

  /** An empty secondary id keeps its fallback even if the catalog has a
      dye with the empty id; the primary has no such truthiness test. */
  lemma EmptyIdKeepsFallback(p: Primary, s: Option<seq<Option<string>>>, dyes: RgbCatalog, k: nat)
    requires k < 2 && SecondaryAt(s, k) == Some("")
    ensures ResolveSlots(p, s, dyes)[k + 1] == Defaults[k + 1]
  {
  }

  /** Every colour written is well formed (`#` and six lower-case hex
      digits) when the catalog and the custom colour hold byte channels. */
  lemma ResolvedColorsWellFormed(p: Primary, s: Option<seq<Option<string>>>, dyes: RgbCatalog)
    requires forall id :: id in dyes ==> InByteRange(dyes[id].color)
    requires p.PrimaryObject? && p.rgb.Some? ==> InByteRange(p.rgb.value)
    ensures forall k :: 0 <= k < 3 ==> SaneHex(Some(ResolveSlots(p, s, dyes)[k])) == Some(ResolveSlots(p, s, dyes)[k])
  {
    var colors := ResolveSlots(p, s, dyes);
    forall k | 0 <= k < 3 ensures SaneHex(Some(colors[k])) == Some(colors[k]) {
      if k == 0 {
        if p.PrimaryId? && p.id in dyes {
          SaneHexOfToHex(dyes[p.id].color);
        } else if p.IsCustom() && p.rgb.Some? {
          SaneHexOfToHex(p.rgb.value);
        } else {
          SaneHexKeepsLowerHex(colors[k]);
        }
      } else {
        var id := SecondaryAt(s, k - 1);
        if NamesDye(id, dyes) {
          SaneHexOfToHex(dyes[id.value].color);
        } else {
          SaneHexKeepsLowerHex(colors[k]);
        }
      }
    }
  }

  /** Catalog ids resolve per slot; an unknown id keeps its fallback. */
  lemma CatalogScenario()
    ensures ResolveSlots(
      PrimaryId("dye_12"),
      Some([Some("dye_7"), Some("dye_9")]),
      map["dye_12" := Entry("A", Rgb(10, 20, 30)), "dye_9" := Entry("B", Rgb(1, 2, 3))])
      == ["#0a141e", "#666666", "#010203"]
  {
    ToHexExamples();
  }

  /** A custom primary with both secondary ids unknown. */
  lemma CustomScenario(dyes: RgbCatalog)
    requires "x" !in dyes && "y" !in dyes
    ensures ResolveSlots(
      PrimaryObject(Some("custom"), Some(Rgb(255, 0, 0))),
      Some([Some("x"), Some("y")]),
      dyes)
      == ["#ff0000", "#666666", "#000000"]
  {
    ToHexExamples();
  }
}
