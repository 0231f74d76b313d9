/** Option and Result, for collaborators that may answer nothing or reject. */
module Results {

  /** A value that may be absent (JavaScript `undefined`). */
  datatype Option<+T> = None | Some(value: T)

  /** The outcome of a collaborator that may reject its promise. */
  datatype Result<+T, +E> = Ok(value: T) | Err(error: E)
}

/**
 The values the token exchange of the ADR gateway reads and produces: the
 grant being exercised, the consent record, the client registration, the
 data holder's OIDC metadata, the parsed token reply and the claims derived
 from it.
 */
module TokenTypes {
  import opened Results

  /** Milliseconds since the epoch, as carried by a JavaScript `Date`. */
  type Timestamp = int

  type ConsentId = nat

  /** Why a collaborator rejected. */
  type Error = string

  /** A JSON value as `JSON.parse` yields it; arrays and objects are not looked into. */
  datatype Json =
    | JString(s: string)
    | JNumber(n: int)
    | JBool(b: bool)
    | JNull
    | JStructured

  /** A parsed JSON object: member name to member value. */
  type JsonObject = map<string, Json>

  /**
   The token endpoint's reply after `JSON.parse`. Every member is optional:
   nothing checks the reply's shape, and the `typeof` test on `id_token`
   is the only place the code inspects a member before using it.
   */
  type TokenReply = JsonObject

  /** `TokenRequestParams`: the grant the exchange exercises. */
  datatype Grant =
    | AuthorizationCode(code: string)
    | RefreshToken

  /**
   The stored consent record: its identity, the redirect URI recorded when
   the consent was authorised, and the token state the last exchange left
   in it (access token, token type, its expiry, refresh token, granted
   scope, serialised claims). The exchange itself reads only the identity,
   the redirect URI and the refresh token; the rest is what the validator
   and the store update see.
   */
  datatype Consent = Consent(
    id: ConsentId,
    redirectUri: string,
    refreshToken: string,
    accessToken: Option<string>,
    tokenType: Option<string>,
    accessTokenExpiresAt: Option<Timestamp>,
    scope: Option<string>,
    claims: Option<string>)

  /** The client registration of this software product at one data holder brand. */
  datatype Registration = Registration(clientId: string, softwareProductId: string, dataholderBrandId: string)

  /** The data holder's OIDC discovery document, as far as the exchange reads it. */
  datatype OidcMetadata = OidcMetadata(tokenEndpoint: string)

  /** The gateway's own signing keys; the model never looks inside them. */
  datatype KeyStore = KeyStore(keys: seq<string>)

  /**
   Trust claims from the identity-token validator or from user-info: the two
   expiries the store needs, and the rest of the claim set, which is only
   serialised.
   */
  datatype Claims = Claims(sharingExpiresAt: int, refreshTokenExpiresAt: int, rest: JsonObject)
}
