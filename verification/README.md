# Colorant picker share-token pipeline, modelled in Dafny

This project models the core of the colorant-picker preview service. A share
token arrives as a URL path segment or as a `palette` / `custom-palette` query
parameter. It is length-checked, decompressed and parsed, then resolved
against a dye catalog into three `#rrggbb` colours. Those colours fill the
regions of a preview image. The same request rules also build the share
page's image and redirect URLs and pick its `Cache-Control` value.

The repository has three deployment variants of this pipeline, and each is
modelled:

- the Cloudflare worker (`src/index.tsx`): path-based routes, a memoised catalog
  of RGB dyes, and a golden-split image;
- the Next routes (`app/og/route.tsx`, `app/share/route.tsx`): query-based
  routes, the same memoised catalog and resolver, and a 3:2:1 column image;
- the Hono app (`src/app.tsx`): query-based routes, a catalog of hex strings
  fetched on every request, `saneHex` validation with a `#777777` fallback,
  and a 5:2.5:1 column image.

Modules, one file each:

- `Wrappers` (`wrappers.dfy`): `Option`.
- `Text` (`text.dfy`): `includes` and single-character `replace`.
- `Hex` (`hex.dfy`): `toHex` and `saneHex`.
- `Token` (`token.dfy`): the decoded-JSON shape and `decodeParam`.
- `Catalog` (`catalog.dfy`): catalog build and the `getDyes` memo as a
  transition function over `Option<Catalog>`.
- `RgbPalette` (`rgb_palette.dfy`): `extractColors` and the Next inline resolver.
- `HexPalette` (`hex_palette.dfy`): the Hono `/api/og` colour selection.
- `Host` (`host.dfy`): host default, dev detection, Cache-Control and protocol.
- `Share` (`share.dfy`): share query and share URLs.
- `Layout` (`layout.dfy`): colour-to-region assignment.
- `Routes` (`routes.dfy`): the image routes end to end.

Foreign calls are function-typed parameters, so every property holds whatever
they do. These are LZString's `decompressFromEncodedURIComponent`,
`JSON.parse` and `encodeURIComponent`. The catalog fetch is an explicit input,
`FetchOutcome`. A renderer fault is an explicit boolean input.

Behaviour of the code worth noting:

- The catalog build keys every array element by its `id`; it does not skip
  incomplete entries.
- The Hono `/api/og` route recognises only `localhost`, not `127.0.0.1`. It
  treats a missing Host header as production, so it sends the long-lived value.
- The Hono `/api/og` route throws, and so does not answer 200, when a custom
  token has no `rgb` or when the chosen token has no `s` array. The model
  returns `None` in that case.
- A token's `s` may have any length or be missing. A missing id keeps its slot's
  fallback.

## Model

| member | source | states |
|---|---|---|
| Text.Includes | src/index.tsx:226 | `includes` is true exactly when the pattern occurs as a contiguous substring at some position of the host string |
| Text.RemoveFirst | src/app.tsx:27 | `replace('#','')` removes only the first `#`: a string without `#` is unchanged, and otherwise the result is the text before the first `#` followed by the text after it |
| Hex.Radix16Digits | src/index.tsx:16 | `toString(16)` of a non-negative integer gives lower-case digits without leading zeros that read back as the number; it is one digit exactly below 16 and at most two exactly below 256 |
| Hex.PadStart | src/index.tsx:16 | `padStart(2,'0')` gives the longer of the input's length and the width |
| Hex.PadStartContents | src/index.tsx:16 | the padded string ends with the input unchanged, and every character before it is the filler |
| Hex.ChannelHex | src/index.tsx:16 | a padded channel is never shorter than two characters |
| Hex.ChannelHexIsByte | src/index.tsx:15-16 | a channel is written as exactly two hex digits iff it is in 0..255, and those digits read back as the channel; a channel of 256 or more gives three or more characters; a negative one starts with `-` |
| Hex.ToHex | src/index.tsx:15-16 | `toHex` starts with `#` and has at least 7 characters |
| Hex.ToHexOfBytes | src/index.tsx:15-16 | for byte channels `toHex` is `#` plus six lower-case hex digits, with the pairs at 1, 3 and 5 reading back as r, g and b |
| Hex.ToHexOfWideChannel | src/index.tsx:15-16 | there is no clamping: any channel of 256 or more makes the string longer than 7 |
| Hex.ToHexExamples | app/og/route.tsx:14-15 | `{10,20,30}` gives `#0a141e`, `{1,2,3}` gives `#010203` and `{255,0,0}` gives `#ff0000` |
| Hex.SaneHex | src/app.tsx:27 | `saneHex` is defined iff the input matches `^#?[0-9a-fA-F]{6}$`, and then equals `#` plus the input's last six characters, case preserved |
| Hex.SaneHexIdempotent | src/app.tsx:27 | `saneHex` is idempotent, and what it returns is `#` plus six hex digits |
| Hex.SaneHexOfToHex | src/app.tsx:25-27 | `saneHex(toHex(c))` is defined iff all channels are in 0..255, and then returns `toHex(c)` unchanged |
| Token.Or | app/og/route.tsx:72-73 | JavaScript's logical or on two strings is truthy iff either operand is; a truthy left operand is chosen, and otherwise the right operand is, as it is |
| Token.DecodeParam | src/index.tsx:18-38 | `decodeParam` gives a value iff the raw token is non-empty and at most 2048 long, its decompression is non-empty and at most 10000 long, and the parser accepts that text; the value is then the parse of the decompressed text |
| Token.RawGateIgnoresCodec | src/index.tsx:18-22 | an absent, empty or over-2048 raw token gives null for any decompressor and parser |
| Token.BoundaryLengthReachesCodec | src/index.tsx:19-33 | a raw token of exactly 2048 characters reaches the decompressor and yields the parse result |
| Token.TextGateIgnoresParser | src/index.tsx:23-31 | empty or over-10000 decompressed text gives null whatever the parser would do |
| Catalog.Index | src/index.tsx:47-55 | the built map's keys are exactly the ids of the dye array |
| Catalog.IndexLastWins | app/og/route.tsx:43-51 | the entry under an id is the last dye carrying that id, so a later duplicate overwrites an earlier one |
| Catalog.Built | app/og/route.tsx:43-51 | a body without a `dyes` array gives the empty map; otherwise the keys are the dyes' ids |
| Catalog.CatalogOf | src/app.tsx:56-76 | the Hono route's per-request catalog is what the memo hands out on a miss: empty on a failed fetch or a missing `dyes` array, and keyed by exactly the fetched ids otherwise |
| Catalog.GetDyes | src/index.tsx:40-62 | `getDyes` fetches iff the cache is unset; a set cache (even `{}`) is returned unchanged; after the call the cache is set iff it was set or the fetch succeeded, and then holds the returned map; a failed fetch returns `{}` |
| Catalog.CacheHitIgnoresFetch | src/index.tsx:41 | with the cache set, the call's result does not depend on the network outcome |
| Catalog.SecondCallIsHit | src/index.tsx:40-57 | after a call that hit or fetched successfully, the next call performs no fetch and returns the same map |
| Catalog.EmptyBodyIsCached | app/og/route.tsx:43-53 | a successful fetch without a `dyes` array still caches `{}`, and later calls do not fetch |
| Catalog.FailureRetries | app/og/route.tsx:37-57 | after a failed fetch the cache is still unset, so the next call fetches again |
| Catalog.ReplayFromSetCache | src/index.tsx:40-41 | once set, the cache never changes and no call fetches, over any run of calls |
| Catalog.ReplayFromUnsetCache | src/index.tsx:40-62 | from an unset cache, a run of calls fetches once per leading failure plus once for the first success, and the cache stays unset iff every fetch failed |
| RgbPalette.ResolveSlots | src/index.tsx:77-90 | the primary is the catalog colour of a string `p` present in the catalog, else the custom `rgb` when `p.type=='custom'`, else `#ffffff`; slot k+1 is the catalog colour of `s[k]` when it is a non-empty id in the catalog, else its default |
| RgbPalette.ColorsFromDecoded | src/index.tsx:69-92 | a falsy or absent decoded value keeps the defaults with no fetch and an unchanged cache; any truthy value (object or not) fetches iff the cache was unset, leaves the memo's cache, and its colours are the slot resolution of its `p` and `s` against the catalog the memo hands out |
| RgbPalette.ExtractColors | src/index.tsx:65-93 | the early return for an absent or empty token agrees with `decodeParam`'s own gate |
| RgbPalette.NextOgColors | app/og/route.tsx:70-93 | with neither parameter the colours are exactly `#ffffff/#666666/#000000` and the cache is untouched; there are always 3 colours |
| RgbPalette.UndecodableTokenKeepsDefaults | src/index.tsx:65-70 | an absent, empty or undecodable token gives exactly the defaults, no fetch and an unchanged cache |
| RgbPalette.NextOgIsExtractOfChosen | app/og/route.tsx:72-91 | the Next route's resolution equals `extractColors` applied to `palette` when it is non-empty and to `custom-palette` otherwise |
| RgbPalette.PaletteShadowsCustom | app/og/route.tsx:72-74 | a non-empty `palette` makes `custom-palette` irrelevant, and if that `palette` fails to decode the colours are the defaults |
| RgbPalette.SlotsAreIndependent | src/index.tsx:77-90 | the primary depends only on `p`, `colors[1]` only on `s[0]` and `colors[2]` only on `s[1]` |
| RgbPalette.EmptyIdKeepsFallback | src/index.tsx:85-90 | an empty-string secondary id keeps its fallback even when the catalog has an entry under `""` |
| RgbPalette.ResolvedColorsWellFormed | src/index.tsx:77-90 | when catalog and custom channels are bytes, every resolved colour is accepted unchanged by `saneHex` |
| RgbPalette.CatalogScenario | app/og/route.tsx:80-91 | `p→{10,20,30}`, an unknown `s[0]` and `s[1]→{1,2,3}` resolve to `#0a141e/#666666/#010203` |
| RgbPalette.CustomScenario | app/og/route.tsx:80-91 | custom `{255,0,0}` with unknown secondary ids resolves to `#ff0000/#666666/#000000` |
| HexPalette.DecodeIfPresent | src/app.tsx:53-54 | the `p ? decodeParam(p) : null` guard changes nothing: it equals `decodeParam(p)` |
| HexPalette.CatalogSlot | src/app.tsx:85 | a slot is `#777777` when its entry is missing, is the normalised hex when `saneHex` accepts it, and is always `#` plus six hex digits |
| HexPalette.SelectColors | src/app.tsx:78-97 | the route throws exactly on an unguarded read of a missing `rgb` or `s`; otherwise there are 3 colours, each `#` plus six hex digits, and without a custom token the primary of a palette token is the catalog slot of its `p` |
| HexPalette.ApiOgColors | src/app.tsx:49-97 | the colours are the selection over both decoded tokens and this request's catalog |
| HexPalette.CustomTakesPrecedence | src/app.tsx:82-88 | when `custom-palette` decodes to a custom token, `palette` does not affect the colours |
| HexPalette.NoTokenColorsWhenNothingDecodes | src/app.tsx:93-96 | with no custom token and no palette token the colours are exactly `#222222/#888888/#eeeeee`, whatever the fetch gave |
| HexPalette.CustomPrimaryColor | src/app.tsx:83-85 | the custom primary is `toHex(p.rgb)` iff all channels are in 0..255, else `#777777` |
| HexPalette.SecondarySlots | src/app.tsx:84-90 | in either branch, slot 1 depends only on `s[0]` and slot 2 only on `s[1]`, with the catalog |
| HexPalette.MissingOrInvalidEntryFallsBack | src/app.tsx:84-90 | a missing entry, or a `hex` that fails `saneHex`, gives `#777777` |
| Host.HostOrLocal | src/index.tsx:225 | a missing or empty Host header becomes `localhost` |
| Host.ImageCache | src/index.tsx:225-227 | the image route sends `no-cache` iff the host contains `localhost` or `127.0.0.1`, else `public, max-age=604800, s-maxage=604800` |
| Host.PageCache | app/share/route.tsx:36-37 | the share page sends `no-cache` iff the host is a dev host, else `public, max-age=604800, immutable` |
| Host.Protocol | app/share/route.tsx:11-12 | the protocol is `http` iff the host is a dev host, else `https` |
| Host.ApiImageCache | src/app.tsx:130-132 | `/api/og` sends `no-cache, no-store, must-revalidate` iff a Host header is present and contains `localhost`, else `public, max-age=31536000, immutable` |
| Host.MissingHostIsDev | app/og/route.tsx:66-68 | a missing host counts as `localhost`: `no-cache` and `http` |
| Host.ApiMissingHostIsProduction | src/app.tsx:130-132 | on `/api/og` a missing host gets the long-lived production value |
| Host.LocalhostNeverCached | src/index.tsx:240-243 | a host containing `localhost` gets `no-cache` on every image route and on the worker and Next share pages, whose image URLs use `http` (the Hono `/share` sets no Cache-Control and always uses `https`) |
| Host.LocalhostPortScenario | app/og/route.tsx:66-68 | `localhost:3001` gets a no-cache value on every route |
| Host.LoopbackDiffers | src/app.tsx:130-132 | `127.0.0.1` is a dev host for the worker and Next routes but not for `/api/og` |
| Share.ShareQuery | app/share/route.tsx:7-8 | the query is empty exactly when neither parameter is non-empty; otherwise it reads back as the name `palette` with the encoded palette token when that is non-empty, else as `custom-palette` with the encoded custom token |
| Share.SplitAtKey | app/share/route.tsx:7-8 | a parameter name without `=` is recovered, with its value, by splitting `name=value` at its first `=`, whatever the value contains |
| Share.QueryOfSuffixed | app/share/route.tsx:9 | appending the suffix to a `?`-free base makes the query the URL's query (empty query, no suffix) |
| Share.Suffix | app/share/route.tsx:9 | `?` plus the query is appended only when the query is non-empty |
| Share.HonoShare | src/app.tsx:138-145 | the target is the front-end URL plus the suffix; the image URL is always `https://<host>/api/og` plus the same suffix; no Cache-Control header is set |
| Share.NextShare | app/share/route.tsx:3-46 | the image URL is `protocol://host/og` plus the suffix; the target is the front-end URL plus the same suffix; Cache-Control follows the dev rule; status 200 |
| Share.PathShare | src/index.tsx:238-254 | the image URL is `protocol://host/og/<token>` and the target is `<app base>/share/<token>`; status 200 |
| Share.PaletteWinsQuery | src/app.tsx:141-142 | a non-empty `palette` makes `custom-palette` irrelevant to the query |
| Share.QueryCarriesParameter | app/share/route.tsx:7-13 | a page whose `?`-free base is followed by the share suffix reads back exactly the parameter the share route chose, and has no query when neither parameter is present |
| Share.SameQueryOnBothUrls | app/share/route.tsx:9-13 | the image URL and the target of both query-based share pages end with the identical query suffix, and the two variants' targets agree |
| Share.PathShareCarriesToken | src/index.tsx:245-248 | both URLs of the path-based share page end with `/` plus the token |
| Layout.VerticalThirds | app/og/route.tsx:95-134 | an 800×800 column whose top, middle and bottom bands are `colors[0..2]`, with weights in the ratio 3 : 2 : 1 |
| Layout.HonoColumn | src/app.tsx:99-126 | an 800×800 column whose bands are `colors[0..2]` in order, with weights in the ratio 5 : 2.5 : 1 |
| Layout.GoldenSplit | src/index.tsx:133-195 | a 1200×630 row: `colors[0]` on the left (61.8), `colors[1]` over `colors[2]` on the right (23.6 over 14.6, summing to 38.2), the weights scaled by ten |
| Layout.ErrorImage | src/index.tsx:96-130 | the error card fills no colour slot |
| Routes.WorkerOg | src/index.tsx:222-235 | status 200 always on a 1200×630 canvas; a renderer fault gives the error card with `no-cache`; otherwise the golden row (61.8 beside 23.6 over 14.6) carries `extractColors` of the token and Cache-Control follows the dev rule; the catalog cache left behind is `extractColors`' |
| Routes.NextOg | app/og/route.tsx:60-190 | status 200 always on an 800×800 canvas; a renderer fault gives the error card with `no-cache`; otherwise a column weighted 3 : 2 : 1 carries the resolved colours; the catalog cache left behind is the one the colour resolution leaves |
| Routes.HonoOg | src/app.tsx:49-135 | a response exists iff nothing throws; it is an 800×800 column weighted 5 : 2.5 : 1 whose bands are the selected colours, its Cache-Control follows the `/api/og` rule, and its status is 200 |
| Routes.NextOgWithoutToken | app/og/route.tsx:70-72 | with neither parameter the bands are `#ffffff`, `#666666`, `#000000` and the catalog cache is untouched |

## Left out

- HTTP framework wiring is not modelled: routing, `c.redirect` for `/` and the
  token-less `/share`, `Content-Type` headers and the `runtime` export. It is
  plumbing around the modelled values.
- The HTML share-page templates are not modelled. They are fixed text around
  the two modelled URLs, plus a foreign `JSON.stringify`.
- Rasterisation by `ImageResponse` and the JSX styling are not modelled. Only
  the canvas, the regions, their weights and their fill colours are. The Next
  error card's second text line is also omitted.
- LZString, `JSON.parse` and `encodeURIComponent` are foreign calls, passed in as
  parameters. The round trip of compressing and then decompressing a token
  therefore belongs to the codec and is not stated.
- `fetch`, `res.ok` and `res.json()` are I/O. The fetch outcome is an explicit
  input, and a non-ok response on the Hono route counts as a failure.
  `cache: 'force-cache'` is an HTTP-layer hint and is not modelled.
- Concurrent cache misses racing on the memo are not modelled. Each call is one
  sequential transition.
- `console.log`/`console.error` calls, `PATTERN_LABEL_JA`, `colorNames` and
  `subtitle` are left out. They are computed but never rendered.
- `src/index.ts` is not part of this model. Its logic lives in `./utils`,
  `./views` and `./middleware`, which are absent. `dev-server.js`, `index.js`
  and `api/[[...route]].ts` are startup glue.
- JavaScript key coercion is not modelled. A non-string `p` or `s[i]` (`null`,
  a number, an object, an out-of-range index) indexes the catalog under its
  string form, such as `"undefined"`. The model treats such keys as absent,
  which assumes no dye id has that form. Prototype-named keys such as
  `__proto__` are not modelled either.
- RGB channels are integers. Fractional channels (`toString(16)` of a float),
  missing channels (which throw inside `toHex`), a string-valued `s`, a `null`
  dye and a non-string `hex` are not modelled.
- String lengths are counted in characters. JavaScript's `length` counts UTF-16
  code units, and the two differ for characters outside the Basic Multilingual
  Plane.
