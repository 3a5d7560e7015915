/**
 * The bearer-token gate `validateToken` (server.js lines 44-58): a decision
 * on the `Authorization` header and the `AUTH_TOKEN` read once at start-up.
 */
module Auth {

  import opened Optional

  /** The scheme prefix, seven characters including the space. */
  const Prefix: string := "Bearer "

  datatype Outcome =
    | Pass            // `next()`: the route handler runs
    | Unauthenticated // 401 "Autenticación requerida"
    | WrongToken      // 401 "Token inválido"

  predicate StartsWith(s: string, prefix: string)
  {
    |prefix| <= |s| && s[..|prefix|] == prefix
  }

  /** The header a client holding `token` sends. */
  function BearerHeader(token: string): string
  {
    Prefix + token
  }

  /**
   * `validateToken`. An absent or empty header, or one not starting with
   * `"Bearer "`, is unauthenticated; otherwise the rest of the header
   * (`substring(7)`) must be `===` to the secret, which an unset secret
   * (`undefined`) never is.
   */
  function Validate(header: Option<string>, secret: Option<string>): (r: Outcome)
    ensures r == Pass <==> secret.Some? && header == Some(BearerHeader(secret.value))
    ensures r == Unauthenticated <==> header.None? || !StartsWith(header.value, Prefix)
    ensures r == WrongToken <==>
              header.Some? && StartsWith(header.value, Prefix)
              && forall t :: secret == Some(t) ==> header.value != BearerHeader(t)
    ensures secret.None? ==> r != Pass
  {
    match header
    case None => Unauthenticated
    case Some(h) =>
      if |h| == 0 || !StartsWith(h, Prefix) then Unauthenticated
      else
        var token := h[|Prefix|..];
        BearerSplit(h, token);
        if secret != Some(token) then WrongToken else Pass
  }

  /** A header is `BearerHeader(t)` exactly when it has the prefix and `t` follows it. */
  lemma BearerSplit(h: string, t: string)
    requires StartsWith(h, Prefix)
    ensures h == BearerHeader(t) <==> h[|Prefix|..] == t
  {
  }
}
