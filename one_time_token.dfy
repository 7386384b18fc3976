/** OneTimeTokenGuard.canActivate: outside production every request passes;
    in production a request must carry an x-app-token header equal to the
    encryption of a formula built from the frontend host, the path, the
    user agent, the request time, the initialisation vector and the body.
    The environment and the encryption are parameters. */
module OneTimeToken {
  import opened Common
  import opened Json

  /** The process.env values the guard reads; a missing variable is None. */
  datatype Env = Env(nodeEnv: Option<string>, frontendHost: Option<string>, initVectorKey: Option<string>)

  /** The parts of the request the guard reads; a missing header is None and
      a missing body is None. */
  datatype Request = Request(path: string, userAgent: Option<string>, requestTime: Option<string>,
                             appToken: Option<string>, body: Option<Json>)

  /** A guard returns true or throws. */
  datatype GuardOutcome = Allow | Deny(e: Thrown)

  const NO_TOKEN: string := "No app token provided."
  const INVALID_TOKEN: string := "Invalid token"

  /** A value as string concatenation renders it: undefined becomes "undefined". */
  function Part(v: Option<string>): string
  {
    match v case Some(s) => s case None => "undefined"
  }

  /** JSON.stringify(request.body || {}). */
  function BodyText(body: Option<Json>): string
  {
    if body.Some? && Truthy(body.value) then Stringify(body.value) else Stringify(JObj([]))
  }

  /** The token formula, in the order the guard concatenates it. */
  function Formula(env: Env, req: Request): string
  {
    Part(env.frontendHost) + req.path + Part(req.userAgent) + Part(req.requestTime) +
    Part(env.initVectorKey) + BodyText(req.body)
  }

  /** canActivate. `encryptSync` yields None where encryption fails (the
      service then returns null, which no header equals). */
  function CanActivate(env: Env, req: Request, encryptSync: string -> Option<string>): (r: GuardOutcome)
    ensures env.nodeEnv != Some("production") ==> r == Allow
    ensures env.nodeEnv == Some("production") ==>
      (r == Allow <==> req.appToken.Some? && req.appToken.value != "" &&
                       encryptSync(Formula(env, req)) == Some(req.appToken.value))
    ensures env.nodeEnv == Some("production") && (req.appToken.None? || req.appToken.value == "") ==>
      r == Deny(HttpException(UNAUTHORIZED, NO_TOKEN))
    ensures r.Deny? ==> r.e.status == Some(UNAUTHORIZED) && (r.e.message == NO_TOKEN || r.e.message == INVALID_TOKEN)
  {
    if env.nodeEnv != Some("production") then Allow
    else if req.appToken.None? || |req.appToken.value| == 0 then Deny(HttpException(UNAUTHORIZED, NO_TOKEN))
    else if encryptSync(Formula(env, req)) != Some(req.appToken.value) then Deny(HttpException(UNAUTHORIZED, INVALID_TOKEN))
    else Allow
  }

  /** A missing or falsy body is signed as the empty object. */
  lemma FalsyBodySignsAsEmptyObject(env: Env, req: Request)
    requires req.body.None? || !Truthy(req.body.value)
    ensures Formula(env, req) == Formula(env, req.(body := Some(JObj([]))))
  {
  }

  /** The decision depends on a request only through its token formula and
      its x-app-token header: two requests that agree on both are decided
      alike, whatever else they carry. */
  lemma DecisionDependsOnFormulaAndToken(env: Env, req: Request, req': Request, encryptSync: string -> Option<string>)
    requires Formula(env, req) == Formula(env, req') && req.appToken == req'.appToken
    ensures CanActivate(env, req, encryptSync) == CanActivate(env, req', encryptSync)
  {
  }

  /** The middle of a concatenation is determined by the parts around it. */
  lemma {:induction false} MiddleDetermined(p: string, a: string, b: string, s: string)
    requires p + a + s == p + b + s
    ensures a == b
  {
    assert |a| == |b|;
    forall i | 0 <= i < |a| ensures a[i] == b[i] {
      assert a[i] == (p + a + s)[|p| + i];
      assert b[i] == (p + b + s)[|p| + i];
    }
  }

  /** A token is bound to its request time: with an encryption that maps
      different texts to different tokens, a token accepted for one request
      time is refused for any other, everything else being the same. */
  lemma {:induction false} TokenBoundToRequestTime(env: Env, req: Request, time: Option<string>,
                                                   encryptSync: string -> Option<string>)
    requires forall x, y :: encryptSync(x).Some? && encryptSync(x) == encryptSync(y) ==> x == y
    requires env.nodeEnv == Some("production")
    requires CanActivate(env, req, encryptSync) == Allow
    requires Part(time) != Part(req.requestTime)
    ensures CanActivate(env, req.(requestTime := time), encryptSync) == Deny(HttpException(UNAUTHORIZED, INVALID_TOKEN))
  {
    var req' := req.(requestTime := time);
    var p := Part(env.frontendHost) + req.path + Part(req.userAgent);
    var s := Part(env.initVectorKey) + BodyText(req.body);
    assert Formula(env, req) == p + Part(req.requestTime) + s;
    assert Formula(env, req') == p + Part(time) + s;
    if encryptSync(Formula(env, req')) == Some(req.appToken.value) {
      assert Formula(env, req') == Formula(env, req);
      MiddleDetermined(p, Part(time), Part(req.requestTime), s);
    }
  }
}
