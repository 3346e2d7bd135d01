/** utils/oauthUtil.js: the OAuth callback address of the running server. */
module OAuthUtil {
  import opened Wrappers
  import opened Text

  /** `${value}` of a header that may be missing. */
  function Interpolated(h: Option<string>): string {
    if h.Some? then h.value else "undefined"
  }

  /** `getRedirectUri(req)`: `forwardedProto` is the `x-forwarded-proto`
      header, `protocol` is `req.protocol` and `host` the `host` header. */
  function GetRedirectUri(forwardedProto: Option<string>, protocol: string, host: Option<string>): (r: string)
    ensures Truthy(forwardedProto) ==> StartsWith(r, forwardedProto.value + "://")
    ensures !Truthy(forwardedProto) ==> StartsWith(r, protocol + "://")
    ensures EndsWith(r, "/auth/callback")
    ensures Contains(r, Interpolated(host))
  {
    var proto := Or(forwardedProto, protocol);
    var r := proto + "://" + Interpolated(host) + "/auth/callback";
    assert r[..|proto + "://"|] == proto + "://";
    assert r[|r| - |"/auth/callback"|..] == "/auth/callback";
    ContainsInfix(proto + "://", Interpolated(host), "/auth/callback");
    r
  }

  /** The host can be read back: it is what lies between the scheme
      separator and the callback path. */
  lemma HostRecoverable(forwardedProto: Option<string>, protocol: string, host: string)
    ensures var r := GetRedirectUri(forwardedProto, protocol, Some(host));
            var start := |Or(forwardedProto, protocol)| + 3;
            start <= |r| - 14 && r[start..|r| - 14] == host
  {
  }

  /** An empty forwarded header falls back to the request's own protocol. */
  lemma EmptyForwardedProtoFallsBack(protocol: string, host: Option<string>)
    ensures GetRedirectUri(Some(""), protocol, host) == GetRedirectUri(None, protocol, host)
  {
  }
}
