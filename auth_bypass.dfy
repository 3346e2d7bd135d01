/** auth-bypass.js: the middleware that waves every request through in
    development and elsewhere demands a bearer Authorization header, in the
    scheme of section 2.1 of RFC 6750. Only the header's prefix is checked. */
module AuthBypass {
  import opened Wrappers
  import opened Text

  /** What the middleware does with a request: `next()` or a 401 reply. */
  datatype Decision = Next | Unauthorized(status: int, error: string)

  const Scheme := "Bearer "

  /** `authBypass(req, res, next)`; `nodeEnv` is `process.env.NODE_ENV` and
      `authorization` is `req.headers.authorization`. */
  function Decide(nodeEnv: Option<string>, authorization: Option<string>): (d: Decision)
    ensures nodeEnv == Some("development") ==> d == Next
    ensures nodeEnv != Some("development") ==>
              (d == Next <==> authorization.Some? && StartsWith(authorization.value, Scheme))
    ensures d.Unauthorized? ==> d == Unauthorized(401, "Unauthorized")
  {
    if nodeEnv == Some("development") then Next
    else if !Truthy(authorization) || !StartsWith(authorization.value, Scheme) then Unauthorized(401, "Unauthorized")
    else Next
  }

  /** Outside development a missing header, a lower-case scheme or a scheme
      without its trailing space is refused. */
  lemma RefusesMalformed(nodeEnv: Option<string>, token: string)
    requires nodeEnv != Some("development")
    ensures Decide(nodeEnv, None).Unauthorized?
    ensures Decide(nodeEnv, Some("bearer " + token)).Unauthorized?
    ensures Decide(nodeEnv, Some("Bearer")).Unauthorized?
  {
    assert ("bearer " + token)[0] == 'b';
  }

  /** The token itself is never inspected: a header of `Bearer ` followed by
      anything, even nothing, is let through. */
  lemma AnyTokenPasses(nodeEnv: Option<string>, token: string)
    ensures Decide(nodeEnv, Some(Scheme + token)) == Next
  {
    assert StartsWith(Scheme + token, Scheme);
  }
}
