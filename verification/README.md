# Session authorizer — Dafny model

This project models the two request handlers of a small token-based
session service running behind an API gateway:

- **The custom authorizer** (`lambda_functions/authorizer/authorizer.js`).
  It rejects a request without a client-id header. It then parses the
  `Bearer` authorization header and verifies the token against a secret
  derived from the client id, with the client id as the expected audience.
  Next it splits the gateway's `methodArn` into region, account id, REST API
  id and stage. Finally it hands back an allow-everything policy for the
  token's subject. The result is one of three outcomes: `Fail(detail)`,
  `Unauthorized(error)` or `Ok(policy)`.
- **The session introspection handler** (`lambda_functions/getSession/getSession.js`).
  It decodes the token's `exp` claim and reports the whole seconds left as
  a 200, a 401 once expired, or a 500 when the header or the token cannot
  be read.

The library calls are inputs: function-valued fields of a `Libraries`
datatype. This covers the header parser, the secret derivation,
`jwt.verify`, `jwt.decode` and the policy object. The clock (`Date.now()`)
is an integer argument `nowMs`. Promises and callbacks become one result
value.

Modules:

- `Wrappers` holds `Option` and `Result`.
- `Runtime` holds JavaScript error values, header lookup and truthiness.
- `Strings` models `String.prototype.split` with a one-character separator, its inverse `Join`, and `Count`.
- `MethodArn` decomposes the gateway ARN.
- `Authorizer` is the authorizer handler.
- `Session` is the introspection handler.

## Behaviour worth knowing

Some consequences of the handler code as written:

- The `methodArn` decomposition fails only when the ARN has fewer than six
  colon-separated fields. A sixth field without `/` does not fail; the stage
  is then absent (`undefined`).
- The first three ARN fields (`arn`, `aws`, `execute-api`) are never checked.
- There is no separate error kind for a malformed ARN. The missing sixth
  field surfaces as whatever the runtime throws, reported under `'Fail'`.
- The authorizer does not distinguish signature, expiry and audience
  failures. `jwt.verify` raises one error, and it goes out as `'Unauthorized'`.
- The introspection handler treats a token as live through the whole second
  `exp`. At that second it returns 200 with 0, not 401.

## Model

| member | source | states |
|---|---|---|
| Strings.Split | lambda_functions/authorizer/authorizer.js:37-38 | `split` on a one-character separator yields one more piece than there are separators (at least one piece, even for the empty string) |
| Strings.SplitPiecesSeparatorFree | lambda_functions/authorizer/authorizer.js:37-38 | no piece produced by `split` contains the separator |
| Strings.JoinSplit | lambda_functions/authorizer/authorizer.js:37-38 | joining the pieces with the separator gives back the original string, so `split` loses nothing |
| Strings.SplitJoin | lambda_functions/authorizer/authorizer.js:37-38 | splitting a join of separator-free pieces recovers exactly those pieces; with `JoinSplit` this makes `split` the unique separator-free decomposition |
| Strings.SplitAtSeparator | lambda_functions/authorizer/authorizer.js:37 | the pieces of `x + sep + y` are the pieces of `x` followed by the pieces of `y` |
| Strings.SplitSeparatorFreePrefix | lambda_functions/authorizer/authorizer.js:38 | a separator-free prefix is glued onto the first piece of what follows, so field 5 keeps the text up to the next `:` |
| MethodArn.Decompose | lambda_functions/authorizer/authorizer.js:37-42 | decomposition succeeds exactly when the ARN has at least five `:` (six fields) and otherwise stands for the thrown TypeError; the account id and region contain no `:`; the API id contains no `:` or `/`; a present stage contains neither |
| MethodArn.DecomposeAnyPrefix | lambda_functions/authorizer/authorizer.js:37-42 | for any three colon-free leading fields, an ARN `f0:f1:f2:R:A:I/S/rest` decomposes to account A, region R, API id I and stage S, whatever `rest` holds; fields 0 to 2 are never read |
| MethodArn.DecomposeGatewayArn | lambda_functions/authorizer/authorizer.js:37-42 | round trip for the gateway's own format `arn:aws:execute-api:R:A:I/S/rest` |
| MethodArn.DecomposeFieldWithoutSlash | lambda_functions/authorizer/authorizer.js:37-42 | for every ARN with at least six fields whose field 5 has no `/`, the decomposition does not fail: the whole field is the API id and the stage is absent |
| MethodArn.DecomposeWithoutStage | lambda_functions/authorizer/authorizer.js:38-42 | the six-field instance: `f0:f1:f2:R:A:I` with no `/` in I decomposes to account A, region R, API id I and no stage |
| Authorizer.Authorize | lambda_functions/authorizer/authorizer.js:10-54 | a falsy client id gives exactly the `missing_client_id` failure; a rejected parse gives `Fail` with the rejection; `Unauthorized` happens exactly when verification with the client's secret and audience fails, and carries the verifier's own error; a verified token with fewer than six ARN fields gives `Fail(MissingArnField)`; `Ok` happens exactly when parse and verification succeed and the ARN has six fields; the policy is built for the verified `sub` and the ARN's context |
| Authorizer.MissingClientIdShortCircuits | lambda_functions/authorizer/authorizer.js:12-19 | without a usable client id the outcome does not depend on the parser, secret, verifier, policy builder, token or ARN, so none of them is consulted |
| Authorizer.VerificationFailureIgnoresArn | lambda_functions/authorizer/authorizer.js:24-30 | a verification failure is `Unauthorized` whatever the ARN and the policy builder are |
| Authorizer.AuthorizeGatewayArn | lambda_functions/authorizer/authorizer.js:33-49 | on a well-formed gateway ARN a verified token yields `Ok` with the policy for principal `sub`, account A, region R, API id I and stage S |
| Authorizer.CallbackError | lambda_functions/authorizer/authorizer.js:14-53 | the callback's first argument is null exactly on success, `'Fail'` for every `Fail` outcome and `'Unauthorized'` for every `Unauthorized` outcome |
| Session.EpochSeconds | lambda_functions/getSession/getSession.js:15 | `Math.floor(nowMs / 1000)` is the whole second containing `nowMs` |
| Session.Remaining | lambda_functions/getSession/getSession.js:15 | the remaining lifetime is non-negative exactly while `nowMs` is before the end of second `exp`, and it is the distance from the current whole second to `exp` |
| Session.GetSession | lambda_functions/getSession/getSession.js:9-39 | the error argument is always null and the status is 200, 401 or 500; a rejected parse gives 500 with the rejection's message; an undecodable token gives 500 with the fixed message; a decoded token gives 200 until the end of its `exp` second and 401 with `Token expired` after; a 200 always carries a non-negative `access_token_expires_in` |
| Session.ReportsSecondsLeft | lambda_functions/getSession/getSession.js:15-30 | a token expiring k ≥ 0 whole seconds after the current second reports exactly k |
| Session.ExpiringSecondIsLive | lambda_functions/getSession/getSession.js:23-30 | boundary: during second `exp` itself the response is 200 with 0 seconds left, not 401 |
| Session.SignedThenInspected | lambda_functions/getSession/getSession.test.js:24-46 | a token signed with lifetime k ≥ 5 seconds and inspected up to 5 seconds later reports 200 with between k-5 and k seconds |
| Session.RemainingNeverGrows | lambda_functions/getSession/getSession.js:15 | a later clock never reports more time left |

## Left out

- Token parsing, secret derivation, `jwt.verify`, `jwt.decode` and the policy builder (`lib/token`, `lib/generate-secret`, `jsonwebtoken`, `lib/AuthPolicy`) are not part of this model. They are function inputs. The built policy is an opaque value determined by (principal id, account id, region, API id, stage). Its statements and ARN patterns are not modelled.
- `lib/response` is not part of this model. A response is just its status code and body. The third argument of `response.create` and the JSON encoding are dropped.
- `lib/constants` is not part of this model. The two header names are string inputs.
- Logging (`log.error`, `log.info`) is left out because it is only a side effect.
- Promise and callback plumbing is left out because the flow is sequential. An exception thrown by the callback itself is not modelled.
- Authorizer.Authorize: a missing `sub` claim is not modelled, because claims always carry a string `sub` here. In JavaScript, `undefined` would be passed as the principal id.
- Authorizer.Authorize: an absent `methodArn` is not modelled, because the gateway always supplies it and it is a plain string here. In JavaScript, `split` on it would throw inside the `.then` callback, and `.catch` would report `'Fail'`.
- Authorizer.Authorize: the synchronous `TypeError` when `event.headers` is itself absent is not modelled. It is thrown before any promise exists, so no callback is made. Headers are a plain map here.
- Session.GetSession: the synchronous `TypeError` when `event.headers` is itself absent is not modelled. It is thrown at the header read before the promise exists, so no callback is made. Headers are a plain map here.
- Authorizer.Authorize: errors thrown by the policy constructor or `build()` are not modelled, because that code is unavailable.
- Authorizer.FailDetail: the wording of the `TypeError` message for a missing sixth ARN field depends on the JavaScript engine. It is represented by the constructor `MissingArnField` alone.
- Session.GetSession: a decoded payload without `exp` is not modelled, because `exp` is an integer here. In JavaScript this gives `NaN` and then a 200 with a non-numeric body.
- The static configuration file `config/prod.js` has no behaviour and is left out.
