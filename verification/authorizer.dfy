/** The custom authorizer handler: a client-id guard, then header parsing,
    token verification against the client's secret, decomposition of the
    `methodArn`, and an allow-everything policy for the token's subject.
    The libraries it calls are function-valued inputs. */
module Authorizer {
  import opened Wrappers
  import opened Runtime
  import opened Strings
  import opened MethodArn

  /** The verified token's claims; the handler reads only `sub`. */
  datatype Claims = Claims(sub: string)

  /** The arguments of `new AuthPolicy(principalId, awsAccountId, apiOptions)`. */
  datatype PolicyRequest = PolicyRequest(principalId: string, accountId: string, options: ApiOptions)

  /** The fields of the gateway event the handler reads. */
  datatype Event = Event(headers: map<string, string>, authorizationToken: Option<string>, methodArn: string)

  /** The collaborators the handler calls, as functions:
      the client-id header name, the `Bearer` header parser, the per-client
      secret derivation, `jwt.verify(token, secret, {audience})` (signature,
      expiry and audience failures all arrive as one error), and the policy
      object after `allowAllMethods()` and `build()`, taken as an opaque
      value determined by the constructor's arguments. */
  datatype Libraries<P> = Libraries(
    clientIdHeader: string,
    parseAuthorizationHeader: Option<string> -> Result<string, Error>,
    secret: string -> string,
    verify: (string, string, string) -> Result<Claims, Error>,
    allowAllPolicy: PolicyRequest -> P)

  /** What accompanies the `'Fail'` callback: the literal missing-client-id
      object, a rejection or error passed through unchanged, or the
      `TypeError` raised by splitting a missing sixth ARN field. */
  datatype FailDetail =
    | MissingClientId(name: string, message: string)
    | Rejected(error: Error)
    | MissingArnField

  /** The single callback the handler makes. */
  datatype Decision<P> =
    | Fail(detail: FailDetail)
    | Unauthorized(error: Error)
    | Ok(policy: P)

  const MissingClientIdName := "missing_client_id"

  function MissingClientIdDetail(header: string): (detail: FailDetail)
    ensures detail.MissingClientId? && detail.name == MissingClientIdName
  {
    MissingClientId(MissingClientIdName, header + " key missing in request header")
  }

  /** `event.headers[CLIENT_ID_HEADER]`. */
  function ClientId<P>(event: Event, lib: Libraries<P>): (clientId: Option<string>)
  {
    Header(event.headers, lib.clientIdHeader)
  }

  /** `jwt.verify` as the handler calls it: the secret is derived from the
      client id, and the client id is also the expected audience. */
  function VerifyFor<P>(lib: Libraries<P>, token: string, clientId: string): (r: Result<Claims, Error>)
  {
    lib.verify(token, lib.secret(clientId), clientId)
  }

  /** The handler. */
  function Authorize<P>(event: Event, lib: Libraries<P>): (d: Decision<P>)
    // the client-id guard comes first
    ensures !Truthy(ClientId(event, lib)) <==> d == Fail(MissingClientIdDetail(lib.clientIdHeader))
    // a rejected header parse is a `Fail` carrying the rejection
    ensures Truthy(ClientId(event, lib)) && lib.parseAuthorizationHeader(event.authorizationToken).Failure? ==>
      d == Fail(Rejected(lib.parseAuthorizationHeader(event.authorizationToken).error))
    // only a failed verification is `Unauthorized`
    ensures d.Unauthorized? <==>
      && Truthy(ClientId(event, lib))
      && lib.parseAuthorizationHeader(event.authorizationToken).Success?
      && VerifyFor(lib, lib.parseAuthorizationHeader(event.authorizationToken).value, ClientId(event, lib).value).Failure?
    // success needs a verified token and an ARN with at least six fields
    ensures d.Ok? <==>
      && Truthy(ClientId(event, lib))
      && lib.parseAuthorizationHeader(event.authorizationToken).Success?
      && VerifyFor(lib, lib.parseAuthorizationHeader(event.authorizationToken).value, ClientId(event, lib).value).Success?
      && Count(event.methodArn, ':') >= 5
    // `Unauthorized` carries the verifier's own error
    ensures d.Unauthorized? ==>
      d.error == VerifyFor(lib, lib.parseAuthorizationHeader(event.authorizationToken).value, ClientId(event, lib).value).error
    // a verified token with fewer than six ARN fields is the thrown `TypeError`
    ensures && Truthy(ClientId(event, lib))
            && lib.parseAuthorizationHeader(event.authorizationToken).Success?
            && VerifyFor(lib, lib.parseAuthorizationHeader(event.authorizationToken).value, ClientId(event, lib).value).Success?
            && Count(event.methodArn, ':') < 5 ==>
      d == Fail(MissingArnField)
    // the policy is built for the verified subject and the ARN's context
    ensures d.Ok? ==>
      d.policy == lib.allowAllPolicy(PolicyRequest(
        VerifyFor(lib, lib.parseAuthorizationHeader(event.authorizationToken).value, ClientId(event, lib).value).value.sub,
        Decompose(event.methodArn).value.accountId,
        Decompose(event.methodArn).value.options))
  {
    var clientId := ClientId(event, lib);
    if !Truthy(clientId) then Fail(MissingClientIdDetail(lib.clientIdHeader))
    else
      match lib.parseAuthorizationHeader(event.authorizationToken)
      case Failure(e) => Fail(Rejected(e))
      case Success(token) =>
        match VerifyFor(lib, token, clientId.value)
        case Failure(e) => Unauthorized(e)
        case Success(claims) =>
          match Decompose(event.methodArn)
          case None => Fail(MissingArnField)
          case Some(ctx) => Ok(lib.allowAllPolicy(PolicyRequest(claims.sub, ctx.accountId, ctx.options)))
  }

  /** With no usable client id the outcome depends on nothing but the header
      name: the parser, the secret, the verifier, the policy builder, the
      token and the ARN are never consulted. */
  lemma MissingClientIdShortCircuits<P>(e1: Event, e2: Event, lib1: Libraries<P>, lib2: Libraries<P>)
    requires lib1.clientIdHeader == lib2.clientIdHeader
    requires !Truthy(ClientId(e1, lib1)) && !Truthy(ClientId(e2, lib2))
    ensures Authorize(e1, lib1) == Authorize(e2, lib2)
  {
  }

  /** A verification failure is `Unauthorized` whatever the ARN and the
      policy builder: the ARN is read only after the token is verified. */
  lemma VerificationFailureIgnoresArn<P>(event: Event, lib: Libraries<P>, otherArn: string,
                                         otherPolicy: PolicyRequest -> P)
    requires Authorize(event, lib).Unauthorized?
    ensures Authorize(event.(methodArn := otherArn), lib.(allowAllPolicy := otherPolicy)) == Authorize(event, lib)
  {
  }

  /** On the gateway's well-formed ARN a verified token yields the
      allow-everything policy for principal `sub`, the ARN's account id and
      the region, API id and stage written in the ARN. */
  lemma AuthorizeGatewayArn<P>(headers: map<string, string>, authorizationToken: Option<string>,
                               lib: Libraries<P>, token: string, claims: Claims,
                               region: string, accountId: string, restApiId: string, stage: string, rest: string)
    requires Truthy(Header(headers, lib.clientIdHeader))
    requires lib.parseAuthorizationHeader(authorizationToken) == Success(token)
    requires VerifyFor(lib, token, Header(headers, lib.clientIdHeader).value) == Success(claims)
    requires ':' !in region && ':' !in accountId
    requires ':' !in restApiId && '/' !in restApiId
    requires ':' !in stage && '/' !in stage
    ensures Authorize(Event(headers, authorizationToken, GatewayArn(region, accountId, restApiId, stage, rest)), lib)
         == Ok(lib.allowAllPolicy(PolicyRequest(claims.sub, accountId, ApiOptions(region, restApiId, Some(stage)))))
  {
    DecomposeGatewayArn(region, accountId, restApiId, stage, rest);
  }

  /** The first argument of the callback: `null` exactly on success,
      otherwise the tier name. */
  function CallbackError<P>(d: Decision<P>): (err: Option<string>)
    ensures err.None? <==> d.Ok?
    ensures d.Fail? ==> err == Some("Fail")
    ensures d.Unauthorized? ==> err == Some("Unauthorized")
  {
    match d
    case Fail(_) => Some("Fail")
    case Unauthorized(_) => Some("Unauthorized")
    case Ok(_) => None
  }
}
