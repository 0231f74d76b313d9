# Token exchange of the ADR gateway, in Dafny

This project models the core of the ADR gateway's consent token exchange: the
evaluator of `ConsentNewAccessTokenNeuron` and the small `ValidateConsentNeuron`.
The evaluator trades an authorization code or a stored refresh token for
tokens at a data holder's token endpoint. It authenticates with a signed JWT
client assertion. It then obtains trust claims, from the identity token or
from user-info, and writes the projected token fields, the request time and
the claims to the consent store in one update.

Layout:

- `token_types.dfy`: `Results` (`Option`, `Result`) and `TokenTypes`. `TokenTypes` holds the grant union `TokenRequestParams` as `Grant`, the consent record with its token state, the registration, the OIDC metadata, the parsed reply (a JSON object, every member optional) and the claims.
- `form_body.dfy`: `FormBody` models the form body before `qs.stringify`. lodash `_.merge` becomes a left fold of right-biased map override, which is exact here because every value is a string.
- `token_exchange.dfy`: `TokenExchange` holds the evaluator. Collaborators are function-valued fields of `Collaborators`: `CreateAssertion`, the mutual-TLS transport with `JSON.parse`, `ValidIdTokenCode`, `ConsentUserInfo`, `JSON.stringify` and `UpdateTokens`. The evaluator returns a `Run`, which holds the calls it made, in order and with their arguments, and what it resolved to. This lets the contract state the order of the calls and that each one happens at most once.
- `validate_consent.dfy`: `ValidateConsent` holds the identity evaluator and the single validator. The validator is the record's own `HasCurrentAccessToken`, passed as a parameter over the consent record and its token state.

Three behaviours of the code differ from what the OAuth 2.0 and OpenID Connect standards lead one to expect. The model follows the code:

- `redirect_uri` goes into the body for refresh grants too. Section 6 of RFC 6749 defines a refresh request with only `grant_type`, `refresh_token` and `scope`.
- An authorization-code exchange whose reply has no `id_token` still calls the id-token validator, with the member absent (`CodeGrantValidatesMissingIdToken`). Section 3.1.3.3 of OpenID Connect Core 1.0 says such a token response must include an `id_token`. The code has no check of its own, so whether the exchange fails here depends on the validator, which is not part of this model.
- User-info receives the consent record as it stood before the exchange, not the access token this exchange just obtained. Section 5.3 of OpenID Connect Core 1.0 has the UserInfo endpoint called with an access token.

Nothing checks that the code is non-empty or that a refresh token is stored. The body carries whatever the consent holds.

## Model

| member | source | states |
|---|---|---|
| `FormBody.MergeKey` | src/AdrGateway/Server/Connectivity/Neurons/ConsentAccessToken.ts:62-67 | lodash merge, key by key: a key is present iff the target or a source has it; the last source that has it supplies its value; the target's value survives only when no source has the key |
| `FormBody.MergeDisjointKeepsAll` | src/AdrGateway/Server/Connectivity/Neurons/ConsentAccessToken.ts:62-67 | when the target and the sources have pairwise disjoint keys, every entry of every input reaches the merged body unchanged |
| `FormBody.GrantParams` | src/AdrGateway/Server/Connectivity/Neurons/ConsentAccessToken.ts:26-35 | the grant parameters carry `grant_type` = `authorization_code` with `code` = the grant's code for an authorization-code grant, and `grant_type` = `refresh_token` alone for a refresh grant; never `refresh_token` |
| `FormBody.Body` | src/AdrGateway/Server/Connectivity/Neurons/ConsentAccessToken.ts:53-67 | for both grants the body holds `client_id` = registration client id, `client_assertion_type` = the JWT-bearer URN, the given `client_assertion`, and `redirect_uri` = the consent's redirect URI; `grant_type` names the grant; `code` is present iff authorization-code, with the given code; `refresh_token` is present iff refresh, with the consent's stored token; the grant parameters survive unchanged; no other field appears |
| `FormBody.BodyIsMerge` | src/AdrGateway/Server/Connectivity/Neurons/ConsentAccessToken.ts:53-67 | the body is exactly the lodash merge of the grant parameters, then the four client-authentication fields, then the grant-specific extras |
| `FormBody.RetryOverMergedParamsSendsFreshBody` | src/AdrGateway/Server/Connectivity/Neurons/ConsentAccessToken.ts:62-67 | the merge mutates the neuron's `params`. Merging fresh authentication fields and extras into an already merged body yields exactly the freshly built body, so a re-run of the evaluator sends no stale field |
| `TokenExchange.IdTokenMember` | src/AdrGateway/Server/Connectivity/Neurons/ConsentAccessToken.ts:79-80 | the id token handed to the validator is the reply's `id_token` member, absent (`undefined`) when the reply has none and passed on whether or not it is a string; the `typeof` test at line 79 holds exactly when that passed-on value is a string |
| `TokenExchange.Project` | src/AdrGateway/Server/Connectivity/Neurons/ConsentAccessToken.ts:89 | the persisted token fields are the reply's members among {access_token, token_type, expires_in, refresh_token, scope}, with their values, and never `id_token` |
| `TokenExchange.ProjectionSeesOnlyTokenFields` | src/AdrGateway/Server/Connectivity/Neurons/ConsentAccessToken.ts:89 | two replies that agree on the five token members persist the same fields, whatever else (an `id_token` included) they carry |
| `TokenExchange.AfterReply` | src/AdrGateway/Server/Connectivity/Neurons/ConsentAccessToken.ts:76-94 | once a reply is in: exactly one claims call, the id-token validator with (product id, brand id, reply's id_token) iff the grant is authorization-code or the id_token is a string, else user-info for this consent; a rejected claims call ends with that rejection and no update; otherwise one update with the consent id, the projected reply, the given request time, both expiries and the serialised claims from that claims value, whose answer is the result |
| `TokenExchange.Dispatched` | src/AdrGateway/Server/Connectivity/Neurons/ConsentAccessToken.ts:59-94 | after signing: the clock is read, then one POST of the body signed with the given assertion goes to the token endpoint; a rejected POST ends the run with its error, otherwise the claims call and the update follow as for `AfterReply`, fed from that reply |
| `TokenExchange.Evaluate` | src/AdrGateway/Server/Connectivity/Neurons/ConsentAccessToken.ts:51-96 | every call sits at a fixed slot (signing, clock, dispatch, claims, update), so each kind happens at most once and in that order. Calls, in order: assertion signed for (client id, token endpoint, keystore), and a signer that throws ends the run there with its error, before the clock is read or anything is sent; clock read; one POST to the token endpoint whose body's `client_assertion` is that signed assertion. A rejected POST ends the run with its error. Otherwise exactly one claims call follows: the id-token validator with (product id, brand id, reply's id_token) iff the grant is authorization-code or the id_token is a string, else user-info for this consent. A rejected claims call ends the run with no update. Otherwise there is one final update, with the consent id, the projected reply, the clock value read before dispatch, and both expiries and the serialised claims from that one claims value. The evaluator returns exactly the update's result |
| `TokenExchange.CodeGrantValidatesMissingIdToken` | src/AdrGateway/Server/Connectivity/Neurons/ConsentAccessToken.ts:78-80 | an authorization-code reply without `id_token` still goes to the id-token validator, which is handed the absent member |
| `TokenExchange.RefreshClaimsFollowIdToken` | src/AdrGateway/Server/Connectivity/Neurons/ConsentAccessToken.ts:78-85 | on a refresh grant a string `id_token` selects the validator with that token; otherwise user-info is asked with the pre-exchange consent |
| `ValidateConsent.ValidateConsentNeuron` | src/AdrGateway/Server/Connectivity/Neurons/ConsentAccessToken.ts:99-109 | the evaluator returns its input unchanged, and the node accepts a cached consent exactly when `HasCurrentAccessToken` holds of it; so re-evaluating cannot turn a rejected consent into an accepted one |

## Left out

- The `Neuron` base class, `GetWithHealing`, caching, retry and single-flight are not modelled. `Common/Connectivity/Neuron` is not part of this model, and its substance is asynchronous and concurrent. `ValidIdTokenCode(...).GetWithHealing()` and `ConsentUserInfo(...).GetWithHealing()` are single collaborator calls that either give claims or reject.
- The mutual-TLS certificate injection (`ClientCertificateInjector.inject`) and the axios transport are not modelled. They are I/O: the POST is a collaborator that receives the request and yields the parsed reply or a rejection.
- `CreateAssertion` (JWT signing) is an opaque collaborator that returns an assertion or throws. `JSON.parse` is folded into the POST collaborator. `JSON.stringify` and `qs.stringify` are opaque functions. The body is modelled as the map before encoding.
- TokenExchange.Evaluate: `JSON.stringify` of the claims and `qs.stringify` of the body are assumed to return. A throw from either is not represented. For `JSON.stringify` it would reject after the claims call and before the update; for `qs.stringify` it would reject after signing and before the clock read.
- The `moment` clock is not modelled: the request time is an input, recorded in the trace as the clock read.
- `ConsentRequestLog.HasCurrentAccessToken` and `ConsentRequestLogManager.UpdateTokens` are not part of this model. Their bodies are not available, so both are parameters.
- JSON numbers are integers, and arrays and objects inside the reply are not looked into. Floating-point values are not modelled.
- The consent's refresh token and redirect URI and the registration's client id are strings. A `null` value would go out as an empty value, which the empty string covers. An `undefined` value would drop its key from the encoded body, so `Body`'s promise that `refresh_token`, `redirect_uri` and `client_id` are always present assumes these values are defined.
- ValidateConsent.ValidateConsentNeuron: `HasCurrentAccessToken` reads the clock, and the model takes it as one predicate fixed at a single instant. It does not model how the verdict changes as time passes.
- `src/AdrGateway/Server/server.ts` is not modelled: it is route wiring and dependency injection. `src/MockServices/Register/MockData/DataHolders.ts` is not modelled: it is a mock-data loader doing network fetches.
