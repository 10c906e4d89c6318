/** The request-level host rules: the `Host` header with its `'localhost'`
    default, development-host detection by substring, and the
    Cache-Control value and protocol each route derives from it. */
module Host {
  import opened Wrappers
  import opened Text
  import opened Token

  const NoCache := "no-cache"
  /** The image routes of the worker and of the Next deployment. */
  const ImageCacheControl := "public, max-age=604800, s-maxage=604800"
  /** The share pages of the worker and of the Next deployment. */
  const PageCacheControl := "public, max-age=604800, immutable"
  /** The Hono `/api/og` route. */
  const ApiNoCache := "no-cache, no-store, must-revalidate"
  const ApiCacheControl := "public, max-age=31536000, immutable"

  /** `header('host') || 'localhost'`. */
  function HostOrLocal(header: Option<string>): (host: string)
    ensures Truthy(header) ==> host == header.value
    ensures !Truthy(header) ==> host == "localhost"
  {
    if Truthy(header) then header.value else "localhost"
  }

  /** `host.includes('localhost') || host.includes('127.0.0.1')`. */
  predicate IsDevHost(host: string) {
    Includes(host, "localhost") || Includes(host, "127.0.0.1")
  }

  /** The host the worker and Next routes see is a development host. */
  predicate IsDevRequest(header: Option<string>) {
    IsDevHost(HostOrLocal(header))
  }

  /** Cache-Control of the worker and Next image routes. */
  function ImageCache(header: Option<string>): (cc: string)
    ensures var host := HostOrLocal(header);
      cc == NoCache <==> Contains(host, "localhost") || Contains(host, "127.0.0.1")
    ensures cc == NoCache || cc == ImageCacheControl
  {
    if IsDevRequest(header) then NoCache else ImageCacheControl
  }

  /** Cache-Control of the worker and Next share pages. */
  function PageCache(header: Option<string>): (cc: string)
    ensures var host := HostOrLocal(header);
      cc == NoCache <==> Contains(host, "localhost") || Contains(host, "127.0.0.1")
    ensures cc == NoCache || cc == PageCacheControl
  {
    if IsDevRequest(header) then NoCache else PageCacheControl
  }

  /** Protocol of the share page's image URL: plain http on a dev host. */
  function Protocol(header: Option<string>): (proto: string)
    ensures var host := HostOrLocal(header);
      proto == "http" <==> Contains(host, "localhost") || Contains(host, "127.0.0.1")
    ensures proto == "http" || proto == "https"
  {
    if IsDevRequest(header) then "http" else "https"
  }

  /** Cache-Control of the Hono `/api/og` route:
      `header('host')?.includes('localhost')`. There is no default host,
      and `127.0.0.1` is not recognised. */
  function ApiImageCache(header: Option<string>): (cc: string)
    ensures cc == ApiNoCache <==> header.Some? && Contains(header.value, "localhost")
    ensures cc == ApiNoCache || cc == ApiCacheControl
  {
    if header.Some? && Includes(header.value, "localhost") then ApiNoCache else ApiCacheControl
  }

  /** A request without a Host header counts as a development request, so
      it is served with `no-cache` over http. */
  lemma MissingHostIsDev()
    ensures IsDevRequest(None) && IsDevRequest(Some(""))
    ensures ImageCache(None) == NoCache && PageCache(None) == NoCache && Protocol(None) == "http"
  {
    assert OccursAt("localhost", "localhost", 0);
  }

  /** The Hono route treats a missing host the other way round: it gets
      the long-lived production value. */
  lemma ApiMissingHostIsProduction()
    ensures ApiImageCache(None) == ApiCacheControl
  {
  }

  /** Every variant recognises a host containing `localhost`, such as
      `localhost:3001`, and serves it without caching. */
  lemma LocalhostNeverCached(header: string)
    requires Contains(header, "localhost")
    ensures ImageCache(Some(header)) == NoCache
    ensures PageCache(Some(header)) == NoCache
    ensures ApiImageCache(Some(header)) == ApiNoCache
    ensures Protocol(Some(header)) == "http"
  {
  }

  lemma LocalhostPortScenario()
    ensures ImageCache(Some("localhost:3001")) == NoCache
    ensures PageCache(Some("localhost:3001")) == NoCache
    ensures ApiImageCache(Some("localhost:3001")) == ApiNoCache
  {
    assert OccursAt("localhost:3001", "localhost", 0);
    LocalhostNeverCached("localhost:3001");
  }

  /** A loopback-address host is development for the worker and Next
      routes but production for the Hono route. */
  lemma LoopbackDiffers()
    ensures ImageCache(Some("127.0.0.1")) == NoCache
    ensures ApiImageCache(Some("127.0.0.1")) == ApiCacheControl
  {
    assert OccursAt("127.0.0.1", "127.0.0.1", 0);
  }
}
