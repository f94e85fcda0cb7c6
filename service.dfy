/**
 * Request handling of src/main.rs: `new_service` runs the fault scan over the
 * configured failures and, when no Error or Timeout fires, `proxy` builds the
 * upstream request from the incoming one.
 *
 * The HTTP library's parsed URI is represented by the two accessors the code reads,
 * `path()` and `path_and_query()`; the outgoing URI is kept as the string the code
 * builds, before the library parses it.
 */
module Service {
  import opened Wrappers
  import opened Faults

  datatype HttpMethod = Options | Get | Post | Put | Delete | Head | Trace | Connect | Patch | Extension(name: string)

  datatype Version = Http09 | Http10 | Http11 | Http2

  datatype Header = Header(name: string, value: string)

  type Body = seq<bv8>

  /** The parts of an incoming URI that the proxy reads: `uri.path()` and `uri.path_and_query()`. */
  datatype Uri = Uri(path: string, pathAndQuery: Option<string>)

  datatype Request = Request(httpMethod: HttpMethod, uri: Uri, version: Version, headers: seq<Header>, body: Body)

  /** The request sent upstream; `uri` is the text that `proxy` builds. */
  datatype UpstreamRequest = UpstreamRequest(httpMethod: HttpMethod, uri: string, version: Version, headers: seq<Header>, body: Body)

  /** What `new_service` hands back: a synthetic response, or the request it forwards. */
  datatype Reply = Synthetic(response: Response) | Proxied(request: UpstreamRequest)

  const SCHEME_PREFIX: string := "http://"

  /** The upstream URI: the scheme, the proxy address, and the path and query when there is one. */
  function UpstreamUri(address: string, pathAndQuery: Option<string>): string {
    SCHEME_PREFIX + address + pathAndQuery.GetOr("")
  }

  /** Recovers the path and query from an upstream URI built for `address`. */
  function StripUpstream(address: string, uri: string): Option<string> {
    var prefix := SCHEME_PREFIX + address;
    if |prefix| <= |uri| && uri[..|prefix|] == prefix then Some(uri[|prefix|..]) else None
  }

  /** The upstream URI loses nothing: the path and query can be read back from it. */
  lemma UpstreamUriRoundTrip(address: string, pathAndQuery: Option<string>)
    ensures StripUpstream(address, UpstreamUri(address, pathAndQuery)) == Some(pathAndQuery.GetOr(""))
  {
  }

  /** Two requests whose path and query differ (as text) go to different upstream URIs. */
  lemma UpstreamUriInjective(address: string, p: Option<string>, q: Option<string>)
    requires UpstreamUri(address, p) == UpstreamUri(address, q)
    ensures p.GetOr("") == q.GetOr("")
  {
    UpstreamUriRoundTrip(address, p);
    UpstreamUriRoundTrip(address, q);
  }

  /** `out` is `req` sent to the upstream address: only the URI is replaced. */
  predicate IsForwardOf(out: UpstreamRequest, address: string, req: Request) {
    out.uri == UpstreamUri(address, req.uri.pathAndQuery)
    && out.httpMethod == req.httpMethod && out.version == req.version
    && out.headers == req.headers && out.body == req.body
  }

  /** `proxy`: build the upstream URI, then copy method, version and headers onto a new request over the body. */
  method Proxy(config: Configuration, req: Request) returns (out: UpstreamRequest)
    ensures req.uri.pathAndQuery.Some? ==> out.uri == "http://" + config.proxyAddress + req.uri.pathAndQuery.value
    ensures req.uri.pathAndQuery.None? ==> out.uri == "http://" + config.proxyAddress
    ensures IsForwardOf(out, config.proxyAddress, req)
  {
    var uri := SCHEME_PREFIX + config.proxyAddress;
    match req.uri.pathAndQuery {
      case Some(x) => uri := uri + x;
      case None =>
    }
    out := UpstreamRequest(Get, "/", Http11, [], req.body);
    out := out.(httpMethod := req.httpMethod);
    out := out.(version := req.version);
    out := out.(headers := req.headers);
    out := out.(uri := uri);
  }

  /**
   * `new_service`: consult every failure whose pattern matches the path, in order,
   * drawing one sample for each; return the first Error or Timeout that fires, and
   * otherwise forward the request. `slept` is the total time slept and `drawn` the
   * number of samples drawn.
   */
  method NewService(config: Configuration, req: Request, matches: Matcher, draws: Draws)
    returns (slept: nat, drawn: nat, reply: Reply)
    ensures var d := Decide(config.failures, req.uri.path, matches, draws);
            slept == d.totalDelay && drawn == d.drawn
            && (reply.Synthetic? <==> d.verdict.Respond?)
            && (reply.Synthetic? ==> reply.response == d.verdict.response)
            && (reply.Proxied? ==> IsForwardOf(reply.request, config.proxyAddress, req))
  {
    var fs, path := config.failures, req.uri.path;
    slept, drawn := 0, 0;
    for i := 0 to |fs|
      invariant Scan(fs, path, matches, draws, i, slept, drawn) == Decide(fs, path, matches, draws)
    {
      var failure := fs[i];
      if matches(failure.path, path) {
        var x := draws(drawn);
        drawn := drawn + 1;
        match failure.failureType {
          case Error =>
            var fault := InjectError(failure, x);
            if fault.Some? {
              slept := slept + fault.value.slept;
              reply := Synthetic(fault.value.response);
              return;
            }
          case Delay =>
            slept := slept + InjectDelay(failure, x);
          case Timeout =>
            var fault := InjectTimeout(failure, x);
            if fault.Some? {
              slept := slept + fault.value.slept;
              reply := Synthetic(fault.value.response);
              return;
            }
        }
      }
    }
    var upstream := Proxy(config, req);
    reply := Proxied(upstream);
  }
}
