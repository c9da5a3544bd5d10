/**
 * The authentication context: on start-up it reads the stored access token, decodes
 * its claims, and drops the token from storage once it has expired.
 */
module AuthContext {
  import opened Wrappers

  /**
   * The claims of a decoded token: the name identifier, e-mail address and role claims,
   * and the expiry in seconds since the epoch, each absent when the token lacks it.
   */
  datatype Claims = Claims(nameId: Option<string>, email: Option<string>, role: Option<string>, exp: Option<real>)

  /** A claim, or "" when it is missing or empty (`claim || ''`). */
  function ClaimOrEmpty(c: Option<string>): (r: string)
    ensures c.Some? ==> r == c.value
    ensures c.None? ==> r == ""
  {
    if c.Some? then c.value else ""
  }

  /**
   * `exp < Date.now() / 1000`: a missing expiry compares false, so a token without one
   * never counts as expired.
   */
  predicate Expired(claims: Claims, nowMs: int) {
    claims.exp.Some? && claims.exp.value < nowMs as real / 1000.0
  }

  /** The context's state, with `storedToken` the `accessToken` entry of local storage. */
  class AuthProvider {
    var email: Option<string>
    var userId: Option<string>
    var role: Option<string>
    var accessToken: Option<string>
    var tokensAndIdExist: bool
    var storedToken: Option<string>

    constructor(stored: Option<string>)
      ensures email.None? && userId.None? && role.None? && accessToken.None? && !tokensAndIdExist
      ensures storedToken == stored
    {
      email, userId, role, accessToken, tokensAndIdExist := None, None, None, None, false;
      storedToken := stored;
    }

    /**
     * The start-up effect, with the JWT decoder (None when decoding throws) and the clock
     * as parameters. Without a stored token nothing changes. With one, the flag and the
     * access token are set; a token that decodes fills in the three claims, even when it
     * has expired, and an expired one is removed from storage and clears the flag again.
     * Starting signed out, the flag ends set exactly when storage still holds a token,
     * the access token is that token, and it has not expired as far as it decodes.
     */
    method LoadStoredToken(decode: string -> Option<Claims>, nowMs: int)
      modifies this`email, this`userId, this`role, this`accessToken, this`tokensAndIdExist, this`storedToken
      ensures old(storedToken).None? || old(storedToken).value == "" ==>
                && email == old(email) && userId == old(userId) && role == old(role)
                && accessToken == old(accessToken) && tokensAndIdExist == old(tokensAndIdExist)
                && storedToken == old(storedToken)
      ensures old(storedToken).Some? && old(storedToken).value != "" ==>
                var token := old(storedToken).value;
                && accessToken == Some(token)
                && (decode(token).None? ==>
                      tokensAndIdExist && storedToken == old(storedToken)
                      && email == old(email) && userId == old(userId) && role == old(role))
                && (decode(token).Some? ==>
                      var claims := decode(token).value;
                      && userId == Some(ClaimOrEmpty(claims.nameId))
                      && email == Some(ClaimOrEmpty(claims.email))
                      && role == Some(ClaimOrEmpty(claims.role))
                      && tokensAndIdExist == !Expired(claims, nowMs)
                      && storedToken == (if Expired(claims, nowMs) then None else old(storedToken)))
      ensures !old(tokensAndIdExist) ==>
                (tokensAndIdExist <==>
                   && storedToken.Some? && storedToken.value != "" && accessToken == storedToken
                   && (decode(storedToken.value).Some? ==> !Expired(decode(storedToken.value).value, nowMs)))
    {
      if storedToken.None? || storedToken.value == "" {
        return;
      }
      var token := storedToken.value;
      tokensAndIdExist := true;
      accessToken := Some(token);
      var decoded := decode(token);
      if decoded.Some? {
        var claims := decoded.value;
        var decodedUserId := ClaimOrEmpty(claims.nameId);
        var decodedEmail := ClaimOrEmpty(claims.email);
        var decodedRole := ClaimOrEmpty(claims.role);
        if claims.exp.Some? && claims.exp.value < nowMs as real / 1000.0 {
          storedToken := None;
          tokensAndIdExist := false;
        }
        userId := Some(decodedUserId);
        email := Some(decodedEmail);
        role := Some(decodedRole);
      }
    }
  }
}
