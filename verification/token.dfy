/** The share-token gate `decodeParam`: a raw-length bound, LZString
    decompression, a decompressed-length bound and `JSON.parse`, any failure
    giving `null`. The codec and the parser are foreign and enter as
    function parameters, so every property holds whatever they do. */
module Token {
  import opened Wrappers
  import opened Hex

  const MaxQueryLength: nat := 2048
  const MaxJsonLength: nat := 10000

  /** The `p` field of a decoded token, as far as the resolvers read it:
      a catalog id, an object (its `type` tag and optional `rgb`), or any
      other JSON value (number, array, null, missing). */
  datatype Primary =
    | PrimaryId(id: string)
    | PrimaryObject(kind: Option<string>, rgb: Option<Rgb>)
    | PrimaryOther
  {
    /** `p?.type === 'custom'`. */
    predicate IsCustom() {
      PrimaryObject? && kind == Some("custom")
    }
  }

  /** What `JSON.parse` returned, restricted to what the callers read.
      `Falsy` stands for the parsed values JavaScript treats as false
      (`null`, `false`, `0`, `""`); every other value is a `Token` whose
      `p` and `s` fields are as read (a truthy non-object has neither).
      `s` is the optional array of secondary ids; an element that is not
      a string is `None`. */
  datatype Json =
    | Falsy
    | Token(p: Primary, s: Option<seq<Option<string>>>)

  /** The two foreign calls of the gate: LZString's
      `decompressFromEncodedURIComponent` (`None` for `null`) and
      `JSON.parse` (`None` when it throws). */
  datatype Codec = Codec(decompress: string -> Option<string>, parse: string -> Option<Json>)

  /** A JavaScript string value that is present and non-empty (truthy). */
  predicate Truthy(s: Option<string>) {
    s.Some? && s.value != ""
  }

  /** JavaScript's `a || b` on two optional strings. */
  function Or(a: Option<string>, b: Option<string>): (r: Option<string>)
    ensures Truthy(r) <==> Truthy(a) || Truthy(b)
    ensures Truthy(a) ==> r == a
    ensures !Truthy(a) ==> r == b
  {
    if Truthy(a) then a else b
  }

  /** The raw token passes the first gate. */
  predicate RawAccepted(raw: Option<string>) {
    Truthy(raw) && |raw.value| <= MaxQueryLength
  }

  /** The decompressed text passes the second gate. */
  predicate TextAccepted(text: Option<string>) {
    Truthy(text) && |text.value| <= MaxJsonLength
  }

  /** `decodeParam`. */
  function DecodeParam(raw: Option<string>, codec: Codec): (r: Option<Json>)
    ensures r.Some? <==>
      && RawAccepted(raw)
      && TextAccepted(codec.decompress(raw.value))
      && codec.parse(codec.decompress(raw.value).value).Some?
    ensures r.Some? ==> r == codec.parse(codec.decompress(raw.value).value)
  {
    if raw.None? || raw.value == "" || |raw.value| > MaxQueryLength then
      None
    else
      var text := codec.decompress(raw.value);
      if text.None? || text.value == "" || |text.value| > MaxJsonLength then
        None
      else
        codec.parse(text.value)
  }

  /** The decoded value is truthy, so the callers go on to read it
      (`if (!data)` stops only falsy values; any other value, object or
      not, is read as a token whose missing fields are undefined). */
  predicate IsToken(d: Option<Json>) {
    d.Some? && d.value.Token?
  }

  /** An absent, empty or over-long raw token is refused before the codec
      is consulted: the result is the same for any two codecs. */
  lemma RawGateIgnoresCodec(raw: Option<string>, c1: Codec, c2: Codec)
    requires !RawAccepted(raw)
    ensures DecodeParam(raw, c1) == None && DecodeParam(raw, c2) == None
  {
  }

  /** A raw token of exactly the bound reaches the decompressor: when the
      codec yields acceptable text that parses, that parse is returned. */
  lemma BoundaryLengthReachesCodec(raw: string, codec: Codec)
    requires |raw| == MaxQueryLength
    requires TextAccepted(codec.decompress(raw))
    requires codec.parse(codec.decompress(raw).value).Some?
    ensures DecodeParam(Some(raw), codec) == codec.parse(codec.decompress(raw).value)
  {
  }

  /** Empty or over-long decompressed text is refused whatever the parser
      would make of it. */
  lemma TextGateIgnoresParser(raw: string, codec: Codec, parse2: string -> Option<Json>)
    requires RawAccepted(Some(raw))
    requires !TextAccepted(codec.decompress(raw))
    ensures DecodeParam(Some(raw), codec) == None
    ensures DecodeParam(Some(raw), Codec(codec.decompress, parse2)) == None
  {
  }
}
