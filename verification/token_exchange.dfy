/**
 The evaluator of `ConsentNewAccessTokenNeuron`: one OAuth2 token exchange
 with a data holder, folded into the consent store.

 The evaluator is a straight line of awaited collaborator calls. Each
 collaborator is a function-valued field of `Collaborators`, so its answer
 depends only on its arguments. The evaluator returns a `Run`: the calls it
 made in order, and what it resolved to. A collaborator that rejects ends
 the run with that rejection, as an awaited promise that rejects ends an
 async function.
 */
module TokenExchange {
  import opened Results
  import opened TokenTypes
  import opened FormBody

  /** The request the transport sends: method, URL and form body. */
  datatype TokenRequest = TokenRequest(verb: string, url: string, body: Form)

  /** The arguments of `ConsentRequestLogManager.UpdateTokens`. */
  datatype TokenUpdate = TokenUpdate(
    consentId: ConsentId,
    tokens: JsonObject,
    requestedAt: Timestamp,
    sharingExpiresAt: int,
    refreshTokenExpiresAt: int,
    serializedClaims: string)

  /**
   The collaborators the evaluator calls. `createAssertion` signs the client
   assertion and, being synchronous, may throw instead; `post` is the mutual-TLS transport followed by `JSON.parse`;
   `validIdToken` and `userInfo` are the two claims sources; `serializeClaims`
   is `JSON.stringify`; `updateTokens` is the consent store's single update.
   */
  datatype Collaborators = Collaborators(
    createAssertion: (string, string, KeyStore) -> Result<string, Error>,
    post: TokenRequest -> Result<TokenReply, Error>,
    validIdToken: (string, string, Option<Json>) -> Result<Claims, Error>,
    userInfo: Consent -> Result<Claims, Error>,
    serializeClaims: Claims -> string,
    updateTokens: TokenUpdate -> Result<Consent, Error>)

  /** One step of the exchange, with the arguments it was given. */
  datatype Call =
    | CreateAssertion(clientId: string, audience: string, keystore: KeyStore)
    | ReadClock(at: Timestamp)
    | Dispatch(request: TokenRequest)
    | ValidateIdToken(productId: string, brandId: string, idToken: Option<Json>)
    | FetchUserInfo(consent: Consent)
    | UpdateTokens(update: TokenUpdate)

  /**
   Where a call belongs in a run: signing, clock, dispatch, claims, update.
   A run whose every call sits at its slot makes each kind of call at most
   once, and in that order.
   */
  function Slot(c: Call): nat {
    match c
    case CreateAssertion(_, _, _) => 0
    case ReadClock(_) => 1
    case Dispatch(_) => 2
    case ValidateIdToken(_, _, _) => 3
    case FetchUserInfo(_) => 3
    case UpdateTokens(_) => 4
  }

  /** What the evaluator did, in order, and what it resolved to. */
  datatype Run = Run(calls: seq<Call>, outcome: Result<Consent, Error>)

  /** The reply members `_.pick` copies into the store update. */
  const PersistedFields: set<string> := {"access_token", "token_type", "expires_in", "refresh_token", "scope"}

  /** `typeof reply.id_token == 'string'`. */
  predicate IdTokenIsString(reply: TokenReply) {
    "id_token" in reply && reply["id_token"].JString?
  }

  /** `reply.id_token` as passed on: absent members read as `undefined`. */
  function IdTokenMember(reply: TokenReply): (t: Option<Json>)
    ensures t.Some? <==> "id_token" in reply
    ensures t.Some? ==> t.value == reply["id_token"]
    ensures IdTokenIsString(reply) <==> t.Some? && t.value.JString?
  {
    if "id_token" in reply then Some(reply["id_token"]) else None
  }

  /**
   `_.pick(reply, PersistedFields)`: the five token members the reply
   carries, unchanged; every other member, `id_token` included, is dropped.
   */
  function Project(reply: TokenReply): (t: JsonObject)
    ensures t.Keys == reply.Keys * PersistedFields
    ensures forall k :: k in t ==> t[k] == reply[k]
    ensures "id_token" !in t
  {
    map k | k in reply && k in PersistedFields :: reply[k]
  }

  /** Two replies that agree on the five token members persist the same fields. */
  lemma ProjectionSeesOnlyTokenFields(r1: TokenReply, r2: TokenReply)
    requires forall k :: k in PersistedFields ==> (k in r1 <==> k in r2)
    requires forall k :: k in PersistedFields && k in r1 ==> r1[k] == r2[k]
    ensures Project(r1) == Project(r2)
  {
  }

  /** The token request: a POST of the form body to the token endpoint. */
  function BuildRequest(g: Grant, consent: Consent, reg: Registration, meta: OidcMetadata, assertion: string): TokenRequest {
    TokenRequest("POST", meta.tokenEndpoint, Body(g, consent, reg, assertion))
  }

  /** Claims come from the id-token validator rather than from user-info. */
  predicate UsesIdToken(g: Grant, reply: TokenReply) {
    g.AuthorizationCode? || IdTokenIsString(reply)
  }

  /** The claims a claims call yields. */
  function ClaimsOf(env: Collaborators, c: Call): Result<Claims, Error>
    requires c.ValidateIdToken? || c.FetchUserInfo?
  {
    match c
    case ValidateIdToken(p, b, t) => env.validIdToken(p, b, t)
    case FetchUserInfo(consent) => env.userInfo(consent)
  }

  /**
   The part of the evaluator after the reply is in: one claims call, then,
   if it gave claims, the store update fed from the reply, the request time
   and those claims.
   */
  function AfterReply(g: Grant, consent: Consent, reg: Registration, now: Timestamp,
                      env: Collaborators, reply: TokenReply): (rest: Run)
    ensures 1 <= |rest.calls| <= 2
    ensures forall i :: 0 <= i < |rest.calls| ==> Slot(rest.calls[i]) == i + 3
    ensures rest.calls[0].ValidateIdToken? || rest.calls[0].FetchUserInfo?
    ensures rest.calls[0].ValidateIdToken? <==> UsesIdToken(g, reply)
    ensures rest.calls[0].ValidateIdToken? ==>
              rest.calls[0] == ValidateIdToken(reg.softwareProductId, reg.dataholderBrandId, IdTokenMember(reply))
    ensures rest.calls[0].FetchUserInfo? ==> rest.calls[0] == FetchUserInfo(consent)
    ensures ClaimsOf(env, rest.calls[0]).Err? <==> |rest.calls| == 1
    ensures |rest.calls| == 1 ==> rest.outcome == Err(ClaimsOf(env, rest.calls[0]).error)
    ensures |rest.calls| == 2 ==>
              && rest.calls[1].UpdateTokens?
              && var u := rest.calls[1].update;
              var c := ClaimsOf(env, rest.calls[0]).value;
              && u.consentId == consent.id
              && u.tokens == Project(reply)
              && u.requestedAt == now
              && u.sharingExpiresAt == c.sharingExpiresAt
              && u.refreshTokenExpiresAt == c.refreshTokenExpiresAt
              && u.serializedClaims == env.serializeClaims(c)
              && rest.outcome == env.updateTokens(u)
  {
    var claimsCall :=
      if UsesIdToken(g, reply)
      then ValidateIdToken(reg.softwareProductId, reg.dataholderBrandId, IdTokenMember(reply))
      else FetchUserInfo(consent);
    match ClaimsOf(env, claimsCall)
    case Err(e) =>
      Run([claimsCall], Err(e))
    case Ok(claims) =>
      var update := TokenUpdate(consent.id, Project(reply), now, claims.sharingExpiresAt,
                                claims.refreshTokenExpiresAt, env.serializeClaims(claims));
      Run([claimsCall, UpdateTokens(update)], env.updateTokens(update))
  }

  /**
   The part of the evaluator after the assertion is signed: read the clock,
   POST the form body signed with `assertion`, and, if the reply is in, go
   on with the claims call and the store update.
   */
  function Dispatched(g: Grant, consent: Consent, reg: Registration, meta: OidcMetadata, now: Timestamp,
                      env: Collaborators, assertion: string): (rest: Run)
    ensures 2 <= |rest.calls| <= 4
    ensures forall i :: 0 <= i < |rest.calls| ==> Slot(rest.calls[i]) == i + 1
    ensures rest.calls[0] == ReadClock(now)
    ensures rest.calls[1] == Dispatch(BuildRequest(g, consent, reg, meta, assertion))
    ensures env.post(rest.calls[1].request).Err? <==> |rest.calls| == 2
    ensures |rest.calls| == 2 ==> rest.outcome == Err(env.post(rest.calls[1].request).error)
    ensures |rest.calls| > 2 ==> rest.calls[2].ValidateIdToken? || rest.calls[2].FetchUserInfo?
    ensures |rest.calls| > 2 ==>
              (rest.calls[2].ValidateIdToken? <==> UsesIdToken(g, env.post(rest.calls[1].request).value))
    ensures |rest.calls| > 2 && rest.calls[2].ValidateIdToken? ==>
              rest.calls[2] == ValidateIdToken(reg.softwareProductId, reg.dataholderBrandId,
                                               IdTokenMember(env.post(rest.calls[1].request).value))
    ensures |rest.calls| > 2 && rest.calls[2].FetchUserInfo? ==> rest.calls[2] == FetchUserInfo(consent)
    ensures |rest.calls| > 2 ==> (ClaimsOf(env, rest.calls[2]).Err? <==> |rest.calls| == 3)
    ensures |rest.calls| == 3 ==> rest.outcome == Err(ClaimsOf(env, rest.calls[2]).error)
    ensures |rest.calls| == 4 ==>
              && rest.calls[3].UpdateTokens?
              && var u := rest.calls[3].update;
              var c := ClaimsOf(env, rest.calls[2]).value;
              && u.consentId == consent.id
              && u.tokens == Project(env.post(rest.calls[1].request).value)
              && u.requestedAt == now
              && u.sharingExpiresAt == c.sharingExpiresAt
              && u.refreshTokenExpiresAt == c.refreshTokenExpiresAt
              && u.serializedClaims == env.serializeClaims(c)
              && rest.outcome == env.updateTokens(u)
  {
    var request := BuildRequest(g, consent, reg, meta, assertion);
    match env.post(request)
    case Err(e) =>
      Run([ReadClock(now), Dispatch(request)], Err(e))
    case Ok(reply) =>
      var after := AfterReply(g, consent, reg, now, env, reply);
      Run([ReadClock(now), Dispatch(request)] + after.calls, after.outcome)
  }

  /**
   The evaluator: sign the client assertion for the token endpoint, read the
   clock, POST the form body, obtain claims from one source, and hand the
   projected token members with the timestamp and the claims to one store
   update, whose answer is the evaluator's answer.
   */
  function Evaluate(g: Grant, consent: Consent, keystore: KeyStore, meta: OidcMetadata, reg: Registration,
                    now: Timestamp, env: Collaborators): (run: Run)
    // the assertion is signed first; a signer that throws ends the run there
    ensures 1 <= |run.calls| <= 5 && |run.calls| != 2
    ensures run.calls[0] == CreateAssertion(reg.clientId, meta.tokenEndpoint, keystore)
    ensures env.createAssertion(reg.clientId, meta.tokenEndpoint, keystore).Err? <==> |run.calls| == 1
    ensures |run.calls| == 1 ==>
              run.outcome == Err(env.createAssertion(reg.clientId, meta.tokenEndpoint, keystore).error)
    // then the clock read and the one dispatch
    ensures |run.calls| > 1 ==> run.calls[1] == ReadClock(now)
    ensures |run.calls| > 1 ==> run.calls[2].Dispatch?
    ensures |run.calls| > 1 ==> run.calls[2].request.verb == "POST"
    ensures |run.calls| > 1 ==> run.calls[2].request.url == meta.tokenEndpoint
    ensures |run.calls| > 1 ==>
              run.calls[2].request.body
              == Body(g, consent, reg, env.createAssertion(reg.clientId, meta.tokenEndpoint, keystore).value)
    // every call sits at its slot: each kind at most once, in that order
    ensures forall i :: 0 <= i < |run.calls| ==> Slot(run.calls[i]) == i
    // a failed dispatch ends the run before any claims lookup or update
    ensures |run.calls| > 1 ==> (env.post(run.calls[2].request).Err? <==> |run.calls| == 3)
    ensures |run.calls| == 3 ==> run.outcome == Err(env.post(run.calls[2].request).error)
    // once the reply is in, exactly one claims source, chosen by grant and id_token
    ensures |run.calls| > 3 ==> run.calls[3].ValidateIdToken? || run.calls[3].FetchUserInfo?
    ensures |run.calls| > 3 ==>
              (run.calls[3].ValidateIdToken? <==> UsesIdToken(g, env.post(run.calls[2].request).value))
    ensures |run.calls| > 3 && run.calls[3].ValidateIdToken? ==>
              run.calls[3] == ValidateIdToken(reg.softwareProductId, reg.dataholderBrandId,
                                              IdTokenMember(env.post(run.calls[2].request).value))
    ensures |run.calls| > 3 && run.calls[3].FetchUserInfo? ==> run.calls[3] == FetchUserInfo(consent)
    // a failed claims lookup ends the run with its rejection, before any update
    ensures |run.calls| > 3 ==> (ClaimsOf(env, run.calls[3]).Err? <==> |run.calls| == 4)
    ensures |run.calls| == 4 ==> run.outcome == Err(ClaimsOf(env, run.calls[3]).error)
    // one store update, last, fed from the reply, the clock and the one claims value
    ensures |run.calls| == 5 ==>
              && run.calls[4].UpdateTokens?
              && var u := run.calls[4].update;
              var c := ClaimsOf(env, run.calls[3]).value;
              && u.consentId == consent.id
              && u.tokens == Project(env.post(run.calls[2].request).value)
              && u.requestedAt == now
              && u.sharingExpiresAt == c.sharingExpiresAt
              && u.refreshTokenExpiresAt == c.refreshTokenExpiresAt
              && u.serializedClaims == env.serializeClaims(c)
              && run.outcome == env.updateTokens(u)
  {
    var sign := CreateAssertion(reg.clientId, meta.tokenEndpoint, keystore);
    match env.createAssertion(reg.clientId, meta.tokenEndpoint, keystore)
    case Err(e) =>
      Run([sign], Err(e))
    case Ok(assertion) =>
      var rest := Dispatched(g, consent, reg, meta, now, env, assertion);
      Run([sign] + rest.calls, rest.outcome)
  }

  /**
   An authorization-code exchange always goes to the id-token validator,
   even when the reply carries no `id_token`: nothing guards that case, and
   the validator is handed the absent member.
   */
  lemma CodeGrantValidatesMissingIdToken(code: string, consent: Consent, keystore: KeyStore, meta: OidcMetadata,
                                         reg: Registration, now: Timestamp, env: Collaborators)
    requires env.createAssertion(reg.clientId, meta.tokenEndpoint, keystore).Ok?
    requires var req := BuildRequest(AuthorizationCode(code), consent, reg, meta,
                                     env.createAssertion(reg.clientId, meta.tokenEndpoint, keystore).value);
             env.post(req).Ok? && "id_token" !in env.post(req).value
    ensures var run := Evaluate(AuthorizationCode(code), consent, keystore, meta, reg, now, env);
            |run.calls| > 3 && run.calls[3] == ValidateIdToken(reg.softwareProductId, reg.dataholderBrandId, None)
  {
  }

  /**
   On a refresh exchange the reply's `id_token` decides: a string sends it to
   the validator, anything else (absent, or not a string) asks user-info,
   which is given the consent record as it was before this exchange.
   */
  lemma RefreshClaimsFollowIdToken(consent: Consent, keystore: KeyStore, meta: OidcMetadata,
                                   reg: Registration, now: Timestamp, env: Collaborators)
    requires env.createAssertion(reg.clientId, meta.tokenEndpoint, keystore).Ok?
    requires var req := BuildRequest(RefreshToken, consent, reg, meta,
                                     env.createAssertion(reg.clientId, meta.tokenEndpoint, keystore).value);
             env.post(req).Ok?
    ensures var run := Evaluate(RefreshToken, consent, keystore, meta, reg, now, env);
            var reply := env.post(run.calls[2].request).value;
            && |run.calls| > 3
            && (IdTokenIsString(reply) ==>
                  run.calls[3] == ValidateIdToken(reg.softwareProductId, reg.dataholderBrandId, Some(reply["id_token"])))
            && (!IdTokenIsString(reply) ==> run.calls[3] == FetchUserInfo(consent))
  {
  }
}
