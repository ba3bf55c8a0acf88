/** An abstract model of the HS256 tokens of the jwt-go library (version 3):
    a token is its claims plus the key that produced its signature, and parsing
    reports the same outcome the library reports. Signatures themselves are not
    modelled; two keys either are the same value or are not. */
module Jwt {

  /** The bits of a ValidationError's Errors field. */
  datatype Flag =
    | Malformed | Unverifiable | SignatureInvalid | Audience | Expired
    | IssuedAt | Issuer | NotValidYet | Id | ClaimsInvalid

  /** What jwt.Parse returns: no error and the token's Valid field, a
      ValidationError with its set of flags, or an error of another type. */
  datatype ParseResult = Parsed(valid: bool) | ValidationError(flags: set<Flag>) | OtherError

  /** The claims the service puts in a token: "email" and "exp" in Unix seconds. */
  datatype Claims = Claims(email: string, exp: int)

  datatype Token = Token(claims: Claims, signingKey: string)

  function Sign(claims: Claims, key: string): (t: Token)
    ensures t.claims == claims
  {
    Token(claims, key)
  }

  /** jwt.Parse of a token at time `now` with the key the key function supplies:
      the claims are validated first ("exp" has passed when now > exp; an "exp"
      of 0 counts as absent and never passes), then the
      signature is checked and a mismatch adds SignatureInvalid to the same error.
      So a token parses as valid exactly when it was signed with the verifying key
      and has not expired, an error of another type never occurs, and a bad
      signature and an expiry are each reported by their own flag. */
  function Verify(t: Token, key: string, now: int): (r: ParseResult)
    ensures r == Parsed(true) <==> t.signingKey == key && (t.claims.exp == 0 || now <= t.claims.exp)
    ensures !r.OtherError? && r != Parsed(false)
    ensures r.ValidationError? ==>
              (Expired in r.flags <==> t.claims.exp != 0 && now > t.claims.exp)
              && (SignatureInvalid in r.flags <==> t.signingKey != key)
              && r.flags <= {Expired, SignatureInvalid}
  {
    var flags := (if t.claims.exp != 0 && now > t.claims.exp then {Expired} else {})
               + (if t.signingKey != key then {SignatureInvalid} else {});
    if flags == {} then Parsed(true) else ValidationError(flags)
  }
}
