/**
 * The create and delete handlers of the backend as methods on the provider, each proved to
 * have exactly the effect its specification function in `Effects` describes.
 */
module Provisioners {
  import opened Wrappers
  import opened Text
  import opened Records
  import opened Cloud
  import opened Locator
  import opened Settings
  import opened Effects

  /**
   * create_build: the upload tool's output is given; when it carries a build id, the tool has
   * registered the build in the account, and the id is what the handler logs.
   */
  method CreateBuild(p: Provider, n: Names, env: Env) returns (outcome: Outcome)
    requires p.Valid()
    modifies p
    ensures p.Valid()
    ensures Step(p.Snapshot(), outcome) == CreateBuildSpec(old(p.Snapshot()), n, env)
  {
    var report := UploadReported(env.uploadOut, env.uploadErr);
    if report.Uploaded? {
      var build := p.UploadBuild(n.build);
    }
    outcome := Completed;
  }

  /**
   * create_fleet: look the build up by name, poll `describe_build` until READY (the provider
   * advancing the build by `progress` between polls), then create the fleet.
   */
  method CreateFleet(p: Provider, n: Names, progress: seq<BuildStatus>) returns (outcome: Outcome)
    requires p.Valid()
    modifies p
    ensures p.Valid()
    ensures Step(p.Snapshot(), outcome) == CreateFleetSpec(old(p.Snapshot()), n, progress)
  {
    var found := LookupBuildId(p, n.build);
    if found.None? {
      return Raised(FleetResponseUnbound);
    }
    var build := found.value;
    ghost var a0 := p.Snapshot();
    ghost var before := p.Snapshot();
    var status := p.DescribeBuild(build);
    var k := 0;
    while status != Some(Ready)
      invariant 0 <= k <= |progress|
      invariant p.Valid() && Consistent(before)
      invariant p.Snapshot() == Described(before, build) && status == InfoOf(before.builds, build)
      invariant PollFrom(before, build, progress[k..]) == PollFrom(a0, build, progress)
      decreases |progress| - k
    {
      if k == |progress| {
        return StillPolling;
      }
      assert progress[k..][1..] == progress[k + 1..];
      p.Settle(build, progress[k]);
      before := p.Snapshot();
      status := p.DescribeBuild(build);
      k := k + 1;
    }
    var fleet := p.CreateFleet(n.fleet, build);
    outcome := Completed;
  }

  /** create_user_pool: unless the pool is found, create it, its login client, e-mail verification and domain. */
  method CreateUserPool(p: Provider, n: Names) returns (outcome: Outcome)
    requires p.Valid()
    modifies p
    ensures p.Valid()
    ensures Step(p.Snapshot(), outcome) == CreateUserPoolSpec(old(p.Snapshot()), n)
  {
    var existing := LookupPoolId(p, n.userPool);
    if existing.Some? {
      return Completed;
    }
    var pool := p.CreateUserPool(n.userPool);
    var client := p.CreateUserPoolClient(pool, n.loginClient);
    p.EnableEmailAutoVerify(pool);
    p.CreateUserPoolDomain(pool, n.subdomain);
    outcome := Completed;
  }

  /** create_lambda_role: `get_role`, and `create_role` only when that fails; then `put_role_policy`. */
  method CreateLambdaRole(p: Provider, role: string, trust: PolicyDocument, policy: string, doc: PolicyDocument)
    returns (arn: Id)
    requires p.Valid()
    modifies p
    ensures p.Valid()
    ensures (p.Snapshot(), arn) == LambdaRoleEnsured(old(p.Snapshot()), role, trust, policy, doc)
  {
    var found := FirstNamed(p.roles, role);
    if found.Some? {
      arn := found.value.id;
    } else {
      arn := p.CreateRole(role, trust);
      FirstNamedAppend(old(p.roles), Named(role, arn, RoleInfo(trust, map[])), role);
    }
    p.PutRolePolicy(role, policy, doc);
  }

  /** create_lambda: substitute the placeholder (when one is given) into the handler source and create the function. */
  method CreateLambda(p: Provider, name: string, role: Id, source: string, placeholder: string, value: string)
    returns (outcome: Outcome)
    requires p.Valid()
    modifies p
    ensures p.Valid()
    ensures Step(p.Snapshot(), outcome) == LambdaCreated(old(p.Snapshot()), name, role, source, placeholder, value)
  {
    var code := source;
    if placeholder != [] {
      code := Replace(code, placeholder, value);
    }
    var arn := p.CreateFunction(name, role, code);
    outcome := if arn.Some? then Completed else Raised(FunctionExists);
  }

  /** create_lambdas: both roles, then the two functions with the fleet id and the app client id spliced in. */
  method CreateLambdas(p: Provider, n: Names, env: Env) returns (outcome: Outcome)
    requires p.Valid()
    modifies p
    ensures p.Valid()
    ensures Step(p.Snapshot(), outcome) == CreateLambdasSpec(old(p.Snapshot()), n, env)
  {
    var sessionRole := CreateLambdaRole(p, SessionRoleName, LambdaTrust, SessionPolicyName, GameLiftSessionAccess);
    var loginRole := CreateLambdaRole(p, LoginRoleName, LambdaTrust, LoginPolicyName, CognitoInitiateAuth);
    var fleet := LookupFleetId(p, n.fleet);
    if fleet.None? {
      return Raised(FleetIdMissing);
    }
    outcome := CreateLambda(p, n.lambdaStartSession, sessionRole, env.sessionSource,
      FleetIdPlaceholder, FleetIdAssignment(IdText(fleet.value)));
    if outcome != Completed {
      return;
    }
    var client := LookupClientId(p, n.userPool, n.loginClient);
    if client.None? {
      return Raised(ClientIdMissing);
    }
    outcome := CreateLambda(p, n.lambdaLogin, loginRole, env.loginSource,
      ClientIdPlaceholder, ClientIdAssignment(IdText(client.value)));
  }

  /**
   * create_login_resource and create_start_session_resource: find the lambda, put the method
   * with the authorization the authorizer id selects, and bind the method to the lambda.
   */
  method CreateRestResource(p: Provider, api: Id, path: string, httpMethod: string, lambdaName: string, authorizer: Option<Id>)
    returns (outcome: Outcome)
    requires p.Valid()
    modifies p
    ensures p.Valid()
    ensures Step(p.Snapshot(), outcome) ==
      ResourceWired(old(p.Snapshot()), api, path, httpMethod, FirstId(old(p.functions), lambdaName), authorizer)
  {
    var fn := LookupFunctionArn(p, lambdaName);
    var auth := if authorizer.Some? then CognitoUserPools(authorizer.value) else NoAuth;
    p.PutMethod(api, path, httpMethod, auth);
    if fn.None? {
      return Raised(FunctionArnMissing);
    }
    p.PutIntegration(api, path, httpMethod, fn.value);
    outcome := Completed;
  }

  /** create_rest_api: unless the API exists, create it with its authorizer, two resources and a deployment. */
  method CreateRestApi(p: Provider, n: Names) returns (outcome: Outcome)
    requires p.Valid()
    modifies p
    ensures p.Valid()
    ensures Step(p.Snapshot(), outcome) == CreateRestApiSpec(old(p.Snapshot()), n)
  {
    var existing := LookupRestApiId(p, n.restApi);
    if existing.Some? {
      return Completed;
    }
    var api := p.CreateRestApi(n.restApi);
    var pool := LookupPoolId(p, n.userPool);
    if pool.None? {
      return Raised(PoolIdMissing);
    }
    var authorizer := p.CreateAuthorizer(api, n.authorizer, pool.value);
    outcome := CreateRestResource(p, api, n.loginPath, "POST", n.lambdaLogin, None);
    if outcome != Completed {
      return;
    }
    outcome := CreateRestResource(p, api, n.startSessionPath, "GET", n.lambdaStartSession, Some(authorizer));
    if outcome != Completed {
      return;
    }
    p.CreateDeployment(api, n.stage);
  }

  /** delete_build: look up and delete until no build of the name is listed. */
  method DeleteBuild(p: Provider, n: Names)
    requires p.Valid()
    modifies p
    ensures p.Valid()
    ensures p.Snapshot() == DeleteBuildSpec(old(p.Snapshot()), n)
  {
    ghost var a0 := p.Snapshot();
    ghost var done: seq<Id> := [];
    var build := LookupBuildId(p, n.build);
    while build.Some?
      invariant p.Valid()
      invariant build == FirstId(p.builds, n.build)
      invariant done + NamedIds(p.builds, n.build) == NamedIds(a0.builds, n.build)
      invariant WithoutName(p.builds, n.build) == WithoutName(a0.builds, n.build)
      invariant p.Snapshot() == a0.(builds := p.builds, calls := a0.calls + BuildDeletions(done))
      decreases |p.builds|
    {
      DeleteFirstMatch(p.builds, n.build, build.value, p.nextId);
      p.DeleteBuild(build.value);
      assert BuildDeletions(done + [build.value]) == BuildDeletions(done) + [Call.DeleteBuild(build.value)];
      done := done + [build.value];
      build := LookupBuildId(p, n.build);
    }
    NoneNamed(p.builds, n.build);
  }

  /** delete_fleet: delete the first fleet of the name, if any; a provider error is only logged. */
  method DeleteFleet(p: Provider, n: Names)
    requires p.Valid()
    modifies p
    ensures p.Valid()
    ensures p.Snapshot() == DeleteFleetSpec(old(p.Snapshot()), n)
  {
    var fleet := LookupFleetId(p, n.fleet);
    if fleet.Some? {
      p.DeleteFleet(fleet.value);
    }
  }

  /** delete_user_pool: for the pool found, delete its domain when it has one, then the pool. */
  method DeleteUserPool(p: Provider, n: Names)
    requires p.Valid()
    modifies p
    ensures p.Valid()
    ensures p.Snapshot() == DeleteUserPoolSpec(old(p.Snapshot()), n)
  {
    var pool := LookupPoolId(p, n.userPool);
    if pool.Some? {
      var info := InfoOf(p.pools, pool.value);
      if info.Some? && info.value.domain.Some? {
        p.DeleteUserPoolDomain(pool.value, info.value.domain.value);
      }
      p.DeleteUserPool(pool.value);
    }
  }

  /** delete_lambdas: the start-session lambda, then the login lambda, each when found. */
  method DeleteLambdas(p: Provider, n: Names)
    requires p.Valid()
    modifies p
    ensures p.Valid()
    ensures p.Snapshot() == DeleteLambdasSpec(old(p.Snapshot()), n)
  {
    var session := LookupFunctionArn(p, n.lambdaStartSession);
    if session.Some? {
      p.DeleteFunction(session.value);
    }
    var login := LookupFunctionArn(p, n.lambdaLogin);
    if login.Some? {
      p.DeleteFunction(login.value);
    }
  }

  /** delete_rest_api: look up and delete until no REST API of the name is listed. */
  method DeleteRestApi(p: Provider, n: Names)
    requires p.Valid()
    modifies p
    ensures p.Valid()
    ensures p.Snapshot() == DeleteRestApiSpec(old(p.Snapshot()), n)
  {
    ghost var a0 := p.Snapshot();
    ghost var done: seq<Id> := [];
    var api := LookupRestApiId(p, n.restApi);
    while api.Some?
      invariant p.Valid()
      invariant api == FirstId(p.apis, n.restApi)
      invariant done + NamedIds(p.apis, n.restApi) == NamedIds(a0.apis, n.restApi)
      invariant WithoutName(p.apis, n.restApi) == WithoutName(a0.apis, n.restApi)
      invariant p.Snapshot() == a0.(apis := p.apis, calls := a0.calls + RestApiDeletions(done))
      decreases |p.apis|
    {
      DeleteFirstMatch(p.apis, n.restApi, api.value, p.nextId);
      p.DeleteRestApi(api.value);
      assert RestApiDeletions(done + [api.value]) == RestApiDeletions(done) + [Call.DeleteRestApi(api.value)];
      done := done + [api.value];
      api := LookupRestApiId(p, n.restApi);
    }
    NoneNamed(p.apis, n.restApi);
  }
}
