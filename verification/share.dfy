/** The share routes: the query carried over from the request, the front-end
    target URL and the preview-image URL written into the page, and the
    page's Cache-Control. `encodeURIComponent` is foreign and enters as a
    parameter. The HTML text itself is fixed boilerplate around the two URLs. */
module Share {
  import opened Wrappers
  import opened Token
  import opened Host

  /** The front end the query-based share pages redirect to. */
  const FrontEnd := "https://phantoml4rd.github.io/ffxiv-colorant-picker/"
  /** The front end of the path-based worker. */
  const AppBase := "https://colorant-picker.pl4rd.com"

  /** What a share route answers with: the image URL and the redirect
      target written into the page, its Cache-Control header (if set) and
      the status. */
  datatype SharePage = SharePage(imageUrl: string, targetUrl: string, cacheControl: Option<string>, status: nat)

  /** `palette ? 'palette='+enc(palette) : custom ? 'custom-palette='+enc(custom) : ''`. */
  function ShareQuery(palette: Option<string>, custom: Option<string>, enc: string -> string): (q: string)
    ensures q == "" <==> !Truthy(palette) && !Truthy(custom)
    ensures ParseQuery(q) ==
      if Truthy(palette) then Some(("palette", enc(palette.value)))
      else if Truthy(custom) then Some(("custom-palette", enc(custom.value)))
      else None
  {
    if Truthy(palette) then
      SplitAtKey("palette", enc(palette.value));
      assert "palette" + "=" + enc(palette.value) == "palette=" + enc(palette.value);
      "palette=" + enc(palette.value)
    else if Truthy(custom) then
      SplitAtKey("custom-palette", enc(custom.value));
      assert "custom-palette" + "=" + enc(custom.value) == "custom-palette=" + enc(custom.value);
      "custom-palette=" + enc(custom.value)
    else ""
  }

  /** `s` split at its first `c`: the text before it and the text after
      it (everything and nothing when `c` does not occur). */
  function SplitAt(s: string, c: char): (parts: (string, string))
    ensures c !in parts.0
  {
    if |s| == 0 then ("", "")
    else if s[0] == c then ("", s[1..])
    else
      var rest := SplitAt(s[1..], c);
      ([s[0]] + rest.0, rest.1)
  }

  /** The reading-back side of a one-parameter query: its name and its
      (still encoded) value. */
  function ParseQuery(q: string): Option<(string, string)> {
    if q == "" then None else Some(SplitAt(q, '='))
  }

  /** A parameter name without `=` is recovered from `name=value`, whatever
      the value holds. */
  lemma {:induction false} SplitAtKey(name: string, value: string)
    requires '=' !in name
    ensures SplitAt(name + "=" + value, '=') == (name, value)
    decreases |name|
  {
    var s := name + "=" + value;
    if |name| > 0 {
      assert s[0] == name[0] != '=';
      assert s[1..] == name[1..] + "=" + value;
      SplitAtKey(name[1..], value);
      assert [name[0]] + name[1..] == name;
    } else {
      assert s[0] == '=' && s[1..] == value;
    }
  }

  /** The query of a URL: the text after its first `?`, empty without one. */
  function QueryOf(url: string): string {
    if |url| == 0 then ""
    else if url[0] == '?' then url[1..]
    else QueryOf(url[1..])
  }

  /** Appending a query suffix to a `?`-free prefix makes that query the
      URL's query. */
  lemma {:induction false} QueryOfSuffixed(prefix: string, q: string)
    ensures '?' !in prefix ==> QueryOf(prefix + Suffix(q)) == q
    decreases |prefix|
  {
    if |prefix| > 0 && '?' !in prefix {
      assert (prefix + Suffix(q))[1..] == prefix[1..] + Suffix(q);
      QueryOfSuffixed(prefix[1..], q);
    } else if |prefix| == 0 && q != "" {
      assert Suffix(q)[1..] == q;
    }
  }

  /** `query ? '?'+query : ''`. */
  function Suffix(q: string): (r: string)
    ensures q == "" ==> r == ""
    ensures q != "" ==> |r| == |q| + 1 && r[0] == '?' && r[1..] == q
  {
    if q == "" then "" else "?" + q
  }

  /** The redirect target of both query-based share routes. */
  function QueryTarget(q: string): string {
    FrontEnd + Suffix(q)
  }

  /** The Hono `/share`: the image URL is always https on `/api/og`, and no
      Cache-Control header is set. */
  function HonoShare(palette: Option<string>, custom: Option<string>, header: Option<string>,
                     enc: string -> string): (page: SharePage)
    ensures var sfx := Suffix(ShareQuery(palette, custom, enc));
      && page.imageUrl == "https://" + HostOrLocal(header) + "/api/og" + sfx
      && page.targetUrl == FrontEnd + sfx
    ensures page.cacheControl.None? && page.status == 200
  {
    var q := ShareQuery(palette, custom, enc);
    var host := HostOrLocal(header);
    SharePage("https://" + host + "/api/og" + Suffix(q), QueryTarget(q), None, 200)
  }

  /** The Next `/share`: the image URL follows the request's protocol and
      points at `/og`. */
  function NextShare(palette: Option<string>, custom: Option<string>, header: Option<string>,
                     enc: string -> string): (page: SharePage)
    ensures var sfx := Suffix(ShareQuery(palette, custom, enc));
      && page.imageUrl == Protocol(header) + "://" + HostOrLocal(header) + "/og" + sfx
      && page.targetUrl == FrontEnd + sfx
    ensures page.cacheControl == Some(PageCache(header)) && page.status == 200
  {
    var q := ShareQuery(palette, custom, enc);
    var host := HostOrLocal(header);
    SharePage(Protocol(header) + "://" + host + "/og" + Suffix(q), QueryTarget(q), Some(PageCache(header)), 200)
  }

  /** The worker's `/share/:data`: the token is a path segment, copied
      verbatim into both URLs. */
  function PathShare(data: string, header: Option<string>): (page: SharePage)
    ensures page.imageUrl == Protocol(header) + "://" + HostOrLocal(header) + "/og/" + data
    ensures page.targetUrl == AppBase + "/share/" + data
    ensures page.cacheControl == Some(PageCache(header)) && page.status == 200
  {
    var host := HostOrLocal(header);
    SharePage(Protocol(header) + "://" + host + "/og/" + data, AppBase + "/share/" + data, Some(PageCache(header)), 200)
  }

  /** `s` ends with `t`. */
  predicate EndsWith(s: string, t: string) {
    |t| <= |s| && s[|s| - |t|..] == t
  }

  /** A non-empty `palette` wins: `custom-palette` does not affect the query. */
  lemma PaletteWinsQuery(palette: Option<string>, c1: Option<string>, c2: Option<string>, enc: string -> string)
    requires Truthy(palette)
    ensures ShareQuery(palette, c1, enc) == ShareQuery(palette, c2, enc)
  {
  }

  /** Whatever `?`-free base the share query is appended to, the page it
      points at reads back the parameter the share route was given: `palette`
      with the encoded palette token when that is non-empty, else
      `custom-palette` with the encoded custom token, and no query at all
      when neither is present. */
  lemma {:induction false} QueryCarriesParameter(base: string, palette: Option<string>, custom: Option<string>,
                                                 enc: string -> string)
    requires '?' !in base
    ensures ParseQuery(QueryOf(base + Suffix(ShareQuery(palette, custom, enc)))) ==
        if Truthy(palette) then Some(("palette", enc(palette.value)))
        else if Truthy(custom) then Some(("custom-palette", enc(custom.value)))
        else None
  {
    QueryOfSuffixed(base, ShareQuery(palette, custom, enc));
  }

  /** In both query-based share routes the image URL and the target carry
      the identical query suffix; the target is the front end plus it. */
  lemma SameQueryOnBothUrls(palette: Option<string>, custom: Option<string>, header: Option<string>,
                            enc: string -> string)
    ensures var sfx := Suffix(ShareQuery(palette, custom, enc));
      && EndsWith(HonoShare(palette, custom, header, enc).imageUrl, sfx)
      && EndsWith(HonoShare(palette, custom, header, enc).targetUrl, sfx)
      && EndsWith(NextShare(palette, custom, header, enc).imageUrl, sfx)
      && EndsWith(NextShare(palette, custom, header, enc).targetUrl, sfx)
      && HonoShare(palette, custom, header, enc).targetUrl == NextShare(palette, custom, header, enc).targetUrl
  {
  }

  /** Both URLs of the path-based share page end with the token. */
  lemma PathShareCarriesToken(data: string, header: Option<string>)
    ensures EndsWith(PathShare(data, header).imageUrl, "/" + data)
    ensures EndsWith(PathShare(data, header).targetUrl, "/" + data)
  {
    var p := PathShare(data, header);
    assert p.imageUrl == (Protocol(header) + "://" + HostOrLocal(header) + "/og") + ("/" + data);
    assert p.targetUrl == (AppBase + "/share") + ("/" + data);
  }
}
