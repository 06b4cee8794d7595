/** The request interceptor (src/http/interceptor.ts). `http` hands `uni.request` a fresh copy
    of its options (`{ ...options, ... }`), and the interceptor rewrites that copy in place:
    query string, address prefix, timeout, headers and the Authorization header.

    The build-time environment (base address, H5 target, proxy switch and prefix, platform
    name) is a `Config`; `stringifyQuery`, whose code is not part of this model, is the
    function parameter `stringify`; the token record is read from the credential store as is. */
module Interceptor {
  import opened Values
  import Http
  import TokenStore

  /** `getEnvBaseUrl()`, the `#ifdef H5` switch, `VITE_APP_PROXY_ENABLE` (parsed),
      `VITE_APP_PROXY_PREFIX` and the `platform` constant. */
  datatype Config = Config(baseUrl: string, isH5: bool, proxyEnabled: bool, proxyPrefix: string,
                           platform: string)

  const Timeout := 60000
  const ContentType := "application/json; charset=utf-8"
  const ContentTypeKey := "Content-Type"
  const PlatformKey := "platform"
  const AuthorizationKey := "Authorization"

  /** The separator put before the query string: `&` when the address already has a `?`. */
  function Separator(url: string): (c: char)
    ensures c == '&' <==> Contains(url, "?")
    ensures c == '?' || c == '&'
  {
    if Contains(url, "?") then '&' else '?'
  }

  /** The address after the query step: unchanged without a query object; otherwise the
      separator and the stringified query are appended, even when that string is empty. */
  function WithQuery(url: string, query: Option<Http.Query>, stringify: Http.Query -> string): (r: string)
    ensures query.None? ==> r == url
    ensures url <= r
    ensures query.Some? ==> |r| == |url| + 1 + |stringify(query.value)|
    ensures query.Some? ==> r[|url|] == Separator(url) && r[|url| + 1..] == stringify(query.value)
  {
    if query.Some? then url + [Separator(url)] + stringify(query.value) else url
  }

  /** The prefix a relative address receives: the proxy prefix in an H5 build with the proxy
      switched on, the base address otherwise. */
  function PrefixFor(cfg: Config): (p: string)
    ensures cfg.isH5 && cfg.proxyEnabled ==> p == cfg.proxyPrefix
    ensures !(cfg.isH5 && cfg.proxyEnabled) ==> p == cfg.baseUrl
  {
    if cfg.isH5 && cfg.proxyEnabled then cfg.proxyPrefix else cfg.baseUrl
  }

  /** The address after the prefix step: one starting with `http` is absolute and kept. */
  function Prefixed(cfg: Config, url: string): (r: string)
    ensures StartsWith(url, "http") ==> r == url
    ensures !StartsWith(url, "http") ==> r == PrefixFor(cfg) + url
  {
    if StartsWith(url, "http") then url else PrefixFor(cfg) + url
  }

  /** The address the request goes to: query first, prefix second. */
  function FinalUrl(cfg: Config, url: string, query: Option<Http.Query>,
                    stringify: Http.Query -> string): string
  {
    Prefixed(cfg, WithQuery(url, query, stringify))
  }

  /** `Bearer ` and the record's access token when it has the double shape, else its token;
      neither expiry nor emptiness is checked. */
  function Authorization(info: TokenStore.TokenInfo): (a: string)
    ensures info.Double? ==> a == "Bearer " + info.accessToken
    ensures info.Single? ==> a == "Bearer " + info.token
  {
    "Bearer " + (if info.Double? then info.accessToken else info.token)
  }

  /** The headers sent: the caller's (none is `{}`), with content type, platform and
      Authorization written over whatever the caller gave. */
  function FinalHeader(platform: string, given: Option<Http.Header>, info: TokenStore.TokenInfo): (h: Http.Header)
    ensures h.Keys == (if given.Some? then given.value.Keys else {}) + {ContentTypeKey, PlatformKey, AuthorizationKey}
    ensures h[ContentTypeKey] == ContentType && h[PlatformKey] == platform
    ensures h[AuthorizationKey] == Authorization(info)
    ensures given.Some? ==> forall k :: k in given.value && k !in {ContentTypeKey, PlatformKey, AuthorizationKey}
                                        ==> h[k] == given.value[k]
  {
    (if given.Some? then given.value else map[])[ContentTypeKey := ContentType][PlatformKey := platform]
      [AuthorizationKey := Authorization(info)]
  }

  /** Appending a query never turns a relative address into an absolute one or back: the
      separator sits where `http` would need a letter. */
  lemma {:induction false} QueryKeepsAbsoluteness(url: string, query: Option<Http.Query>,
                                                  stringify: Http.Query -> string)
    ensures StartsWith(WithQuery(url, query, stringify), "http") <==> StartsWith(url, "http")
  {
    if query.Some? {
      var tail := [Separator(url)] + stringify(query.value);
      var r := url + tail;
      assert WithQuery(url, query, stringify) == r;
      if StartsWith(url, "http") {
        StartsWithAppend(url, tail, "http");
      } else if |url| < 4 && 4 <= |r| {
        assert r[|url|] == Separator(url);
        assert "http"[|url|] != Separator(url);
        assert r[..4][|url|] != "http"[|url|];
      } else if 4 <= |url| {
        assert r[..4] == url[..4];
      }
    }
  }

  /** After the query step the address has a `?`, whether it had one before or not, and
      it still begins with the caller's address. */
  lemma QueryMarksUrl(url: string, q: Http.Query, stringify: Http.Query -> string)
    ensures var r := WithQuery(url, Some(q), stringify);
            Contains(r, "?") && url <= r
  {
    var r := WithQuery(url, Some(q), stringify);
    var tail := [Separator(url)] + stringify(q);
    assert r == url + tail;
    if Contains(url, "?") {
      ContainsInPrefix(url, tail, "?");
    } else {
      assert r[|url|..|url| + 1] == "?";
      ContainsAt(r, "?", |url|);
    }
  }

  /** The layout of the final address: prefix (only for a relative address), the caller's
      address, then separator and query string (only with a query object). */
  lemma FinalUrlLayout(cfg: Config, url: string, query: Option<Http.Query>, stringify: Http.Query -> string)
    ensures FinalUrl(cfg, url, query, stringify)
            == (if StartsWith(url, "http") then "" else PrefixFor(cfg)) + url
               + (if query.Some? then [Separator(url)] + stringify(query.value) else "")
  {
    QueryKeepsAbsoluteness(url, query, stringify);
  }

  /** The options object `uni.request` receives: the builder's fields plus `timeout`. */
  class Options {
    var url: string
    var verb: Http.Method
    var query: Option<Http.Query>
    var data: Option<Val>
    var header: Option<Http.Header>
    var hideErrorToast: bool
    var timeout: Option<int>

    /** The fields the builders set. */
    function Request(): Http.RequestOptions
      reads this
    {
      Http.RequestOptions(url, verb, query, data, header, hideErrorToast)
    }

    /** The copy `http` makes of its options; no timeout is set yet. */
    constructor(req: Http.RequestOptions)
      ensures Request() == req && timeout.None?
    {
      url := req.url;
      verb := req.verb;
      query := req.query;
      data := req.data;
      header := req.header;
      hideErrorToast := req.hideErrorToast;
      timeout := None;
    }

    /** `httpInterceptor.invoke`: rewrites address, timeout and headers in that order and
        leaves the method, query, body and toast switch as they were. */
    method Invoke(cfg: Config, stringify: Http.Query -> string, info: TokenStore.TokenInfo)
      modifies this
      ensures url == FinalUrl(cfg, old(url), old(query), stringify)
      ensures timeout == Some(Timeout)
      ensures header == Some(FinalHeader(cfg.platform, old(header), info))
      ensures verb == old(verb) && query == old(query) && data == old(data)
      ensures hideErrorToast == old(hideErrorToast)
    {
      if query.Some? {
        var queryStr := stringify(query.value);
        if Contains(url, "?") {
          url := url + "&" + queryStr;
        } else {
          url := url + "?" + queryStr;
        }
      }
      if !StartsWith(url, "http") {
        if cfg.isH5 {
          if cfg.proxyEnabled {
            url := cfg.proxyPrefix + url;
          } else {
            url := cfg.baseUrl + url;
          }
        } else {
          url := cfg.baseUrl + url;
        }
      }
      timeout := Some(Timeout);
      var merged := (if header.Some? then header.value else map[])[ContentTypeKey := ContentType][PlatformKey := cfg.platform];
      if info.Double? {
        merged := merged[AuthorizationKey := "Bearer " + info.accessToken];
      } else {
        merged := merged[AuthorizationKey := "Bearer " + info.token];
      }
      header := Some(merged);
    }
  }
}
