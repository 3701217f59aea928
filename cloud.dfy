/**
 * The provider side: the AWS account the backend drives through its boto3 clients,
 * reduced to in-memory collections of named records, and one method per client call
 * the backend makes. Listing and get/describe calls only read the collections; every
 * call that changes the account, and every `describe_build` of the readiness poll, is
 * appended to the call log so that the number and order of calls can be stated.
 */
module Cloud {
  import opened Wrappers
  import opened Records

  /** A GameLift build's status as `describe_build` reports it. */
  datatype BuildStatus = Initialized | Ready | Failed

  /** The fixed IAM policy documents the backend writes (their JSON bodies are not modelled). */
  datatype PolicyDocument = LambdaTrust | GameLiftSessionAccess | CognitoInitiateAuth

  /** A Cognito user pool: its app clients, its hosted domain and whether e-mail is auto-verified. */
  datatype PoolInfo = PoolInfo(clients: seq<Named<()>>, domain: Option<string>, emailAutoVerified: bool)

  /** An IAM role: its trust policy and its inline policies by name. */
  datatype RoleInfo = RoleInfo(trust: PolicyDocument, inline: map<string, PolicyDocument>)

  /** A Lambda function: the role it runs as and the handler source packaged into it. */
  datatype FunctionInfo = FunctionInfo(role: Id, code: string)

  /** The authorization of a gateway method: none, or the Cognito authorizer with that id. */
  datatype MethodAuth = NoAuth | CognitoUserPools(authorizer: Id)

  /** A logged client call. */
  datatype Call =
    | UploadBuild(name: string)
    | DescribeBuild(build: Id)
    | DeleteBuild(build: Id)
    | CreateFleet(name: string, build: Id)
    | DeleteFleet(fleet: Id)
    | CreateUserPool(name: string)
    | CreateUserPoolClient(pool: Id, name: string)
    | EnableEmailAutoVerify(pool: Id)
    | CreateUserPoolDomain(pool: Id, domain: string)
    | DeleteUserPoolDomain(pool: Id, domain: string)
    | DeleteUserPool(pool: Id)
    | CreateRole(name: string)
    | PutRolePolicy(name: string, policy: string)
    | CreateFunction(name: string, role: Id)
    | DeleteFunction(fn: Id)
    | CreateRestApi(name: string)
    | CreateAuthorizer(api: Id, name: string, pool: Id)
    | PutMethod(api: Id, path: string, httpMethod: string, auth: MethodAuth)
    | PutIntegration(api: Id, path: string, httpMethod: string, fn: Id)
    | CreateDeployment(api: Id, stage: string)
    | DeleteRestApi(api: Id)

  /** The whole account as a value. Fleets carry the id of the build they run. */
  datatype Account = Account(
    builds: seq<Named<BuildStatus>>,
    fleets: seq<Named<Id>>,
    pools: seq<Named<PoolInfo>>,
    roles: seq<Named<RoleInfo>>,
    functions: seq<Named<FunctionInfo>>,
    apis: seq<Named<()>>,
    calls: seq<Call>,
    nextId: Id)

  /** Within each collection ids are distinct, and every id was issued before `nextId`. */
  ghost predicate Consistent(a: Account) {
    && WellIdentified(a.builds, a.nextId)
    && WellIdentified(a.fleets, a.nextId)
    && WellIdentified(a.pools, a.nextId)
    && WellIdentified(a.roles, a.nextId)
    && WellIdentified(a.functions, a.nextId)
    && WellIdentified(a.apis, a.nextId)
  }

  /** `n` consecutive `describe_build` calls on one build. */
  function Describes(build: Id, n: nat): seq<Call> {
    seq(n, _ => Call.DescribeBuild(build))
  }

  /** One `delete_build` per id, in order. */
  function BuildDeletions(ids: seq<Id>): seq<Call> {
    seq(|ids|, i requires 0 <= i < |ids| => Call.DeleteBuild(ids[i]))
  }

  /** One `delete_rest_api` per id, in order. */
  function RestApiDeletions(ids: seq<Id>): seq<Call> {
    seq(|ids|, i requires 0 <= i < |ids| => Call.DeleteRestApi(ids[i]))
  }

  // The effect of each client call on the account.

  function Described(a: Account, build: Id): (r: Account)
    ensures Consistent(a) ==> Consistent(r)
  {
    a.(calls := a.calls + [Call.DescribeBuild(build)])
  }

  /** The provider's own progress on a build while the backend sleeps: its status becomes `status`. */
  function Settled(a: Account, build: Id, status: BuildStatus): (r: Account)
    ensures r == a.(builds := r.builds)
    ensures SameKeys(a.builds, r.builds)
    ensures Consistent(a) ==> Consistent(r)
  {
    RetagKeepsNames(a.builds, build, status, "", a.nextId);
    a.(builds := Retag(a.builds, build, status))
  }

  /** The upload tool registering a new build of that name, which starts out INITIALIZED. */
  function BuildUploaded(a: Account, name: string): (r: Account)
    ensures Consistent(a) ==> Consistent(r)
  {
    AppendFresh(a.builds, Named(name, a.nextId, Initialized), a.nextId);
    a.(builds := a.builds + [Named(name, a.nextId, Initialized)],
       calls := a.calls + [Call.UploadBuild(name)],
       nextId := a.nextId + 1)
  }

  function BuildDeleted(a: Account, build: Id): (r: Account)
    ensures Consistent(a) ==> Consistent(r)
  {
    RemoveIdKeeps(a.builds, build, a.nextId);
    a.(builds := RemoveId(a.builds, build), calls := a.calls + [Call.DeleteBuild(build)])
  }

  function FleetCreated(a: Account, name: string, build: Id): (r: Account)
    ensures Consistent(a) ==> Consistent(r)
  {
    AppendFresh(a.fleets, Named(name, a.nextId, build), a.nextId);
    a.(fleets := a.fleets + [Named(name, a.nextId, build)],
       calls := a.calls + [Call.CreateFleet(name, build)],
       nextId := a.nextId + 1)
  }

  function FleetDeleted(a: Account, fleet: Id): (r: Account)
    ensures Consistent(a) ==> Consistent(r)
  {
    RemoveIdKeeps(a.fleets, fleet, a.nextId);
    a.(fleets := RemoveId(a.fleets, fleet), calls := a.calls + [Call.DeleteFleet(fleet)])
  }

  function PoolCreated(a: Account, name: string): (r: Account)
    ensures Consistent(a) ==> Consistent(r)
    ensures InfoOf(r.pools, a.nextId).Some?
  {
    var pool := Named(name, a.nextId, PoolInfo([], None, false));
    AppendFresh(a.pools, pool, a.nextId);
    assert (a.pools + [pool])[|a.pools|] == pool;
    InfoOfPresent(a.pools + [pool], a.nextId);
    a.(pools := a.pools + [pool], calls := a.calls + [Call.CreateUserPool(name)], nextId := a.nextId + 1)
  }

  /** Replaces the info of pool `pool`, keeping names and ids. */
  function WithPoolInfo(a: Account, pool: Id, info: PoolInfo): (r: Account)
    requires InfoOf(a.pools, pool).Some?
    ensures Consistent(a) ==> Consistent(r)
    ensures InfoOf(r.pools, pool) == Some(info)
  {
    RetagKeepsNames(a.pools, pool, info, "", a.nextId);
    RetagPresent(a.pools, pool, info);
    a.(pools := Retag(a.pools, pool, info))
  }

  function ClientCreated(a: Account, pool: Id, name: string): (r: Account)
    requires InfoOf(a.pools, pool).Some?
    ensures Consistent(a) ==> Consistent(r)
    ensures InfoOf(r.pools, pool).Some?
  {
    var info := InfoOf(a.pools, pool).value;
    var b := WithPoolInfo(a, pool, info.(clients := info.clients + [Named(name, a.nextId, ())]));
    b.(calls := a.calls + [Call.CreateUserPoolClient(pool, name)], nextId := a.nextId + 1)
  }

  function EmailAutoVerifyEnabled(a: Account, pool: Id): (r: Account)
    requires InfoOf(a.pools, pool).Some?
    ensures Consistent(a) ==> Consistent(r)
    ensures InfoOf(r.pools, pool).Some?
  {
    var info := InfoOf(a.pools, pool).value;
    WithPoolInfo(a, pool, info.(emailAutoVerified := true)).(calls := a.calls + [Call.EnableEmailAutoVerify(pool)])
  }

  function DomainCreated(a: Account, pool: Id, domain: string): (r: Account)
    requires InfoOf(a.pools, pool).Some?
    ensures Consistent(a) ==> Consistent(r)
    ensures InfoOf(r.pools, pool).Some?
  {
    var info := InfoOf(a.pools, pool).value;
    WithPoolInfo(a, pool, info.(domain := Some(domain))).(calls := a.calls + [Call.CreateUserPoolDomain(pool, domain)])
  }

  function DomainDeleted(a: Account, pool: Id, domain: string): (r: Account)
    requires InfoOf(a.pools, pool).Some?
    ensures Consistent(a) ==> Consistent(r)
    ensures InfoOf(r.pools, pool).Some?
  {
    var info := InfoOf(a.pools, pool).value;
    WithPoolInfo(a, pool, info.(domain := None)).(calls := a.calls + [Call.DeleteUserPoolDomain(pool, domain)])
  }

  function PoolDeleted(a: Account, pool: Id): (r: Account)
    ensures Consistent(a) ==> Consistent(r)
  {
    RemoveIdKeeps(a.pools, pool, a.nextId);
    a.(pools := RemoveId(a.pools, pool), calls := a.calls + [Call.DeleteUserPool(pool)])
  }

  function RoleCreated(a: Account, name: string, trust: PolicyDocument): (r: Account)
    ensures Consistent(a) ==> Consistent(r)
    ensures FirstNamed(r.roles, name).Some?
    ensures forall other :: FirstNamed(a.roles, other).Some? ==> FirstNamed(r.roles, other) == FirstNamed(a.roles, other)
  {
    var role := Named(name, a.nextId, RoleInfo(trust, map[]));
    AppendFresh(a.roles, role, a.nextId);
    FirstNamedAppend(a.roles, role, name);
    AppendKeepsLookups(a.roles, role);
    a.(roles := a.roles + [role], calls := a.calls + [Call.CreateRole(name)], nextId := a.nextId + 1)
  }

  /** `put_role_policy`: the role named `role` gets (or replaces) the inline policy `policy`. */
  function RolePolicyPut(a: Account, role: string, policy: string, doc: PolicyDocument): (r: Account)
    requires FirstNamed(a.roles, role).Some?
    ensures Consistent(a) ==> Consistent(r)
    ensures r == a.(roles := r.roles, calls := a.calls + [Call.PutRolePolicy(role, policy)])
    ensures SameKeys(a.roles, r.roles)
    ensures forall name :: FirstId(r.roles, name) == FirstId(a.roles, name)
    ensures var before := FirstNamed(a.roles, role).value;
      && FirstNamed(r.roles, role).Some?
      && FirstNamed(r.roles, role).value.info.trust == before.info.trust
      && FirstNamed(r.roles, role).value.info.inline == before.info.inline[policy := doc]
    ensures forall x: Named<RoleInfo> :: x.id != FirstNamed(a.roles, role).value.id ==> (x in r.roles <==> x in a.roles)
  {
    var target := FirstNamed(a.roles, role).value;
    var info := target.info.(inline := target.info.inline[policy := doc]);
    RetagKeepsNames(a.roles, target.id, info, role, a.nextId);
    RetagKeepsLookups(a.roles, target.id, info);
    RetagFirstNamed(a.roles, role, info);
    RetagKeepsOthersAll(a.roles, target.id, info);
    a.(roles := Retag(a.roles, target.id, info), calls := a.calls + [Call.PutRolePolicy(role, policy)])
  }

  function FunctionCreated(a: Account, name: string, role: Id, code: string): (r: Account)
    ensures Consistent(a) ==> Consistent(r)
  {
    var fn := Named(name, a.nextId, FunctionInfo(role, code));
    AppendFresh(a.functions, fn, a.nextId);
    a.(functions := a.functions + [fn], calls := a.calls + [Call.CreateFunction(name, role)], nextId := a.nextId + 1)
  }

  function FunctionDeleted(a: Account, fn: Id): (r: Account)
    ensures Consistent(a) ==> Consistent(r)
  {
    RemoveIdKeeps(a.functions, fn, a.nextId);
    a.(functions := RemoveId(a.functions, fn), calls := a.calls + [Call.DeleteFunction(fn)])
  }

  function RestApiCreated(a: Account, name: string): (r: Account)
    ensures Consistent(a) ==> Consistent(r)
  {
    AppendFresh(a.apis, Named(name, a.nextId, ()), a.nextId);
    a.(apis := a.apis + [Named(name, a.nextId, ())], calls := a.calls + [Call.CreateRestApi(name)], nextId := a.nextId + 1)
  }

  /** An authorizer only takes an id; the model keeps no authorizer records. */
  function AuthorizerCreated(a: Account, api: Id, name: string, pool: Id): (r: Account)
    ensures Consistent(a) ==> Consistent(r)
  {
    a.(calls := a.calls + [Call.CreateAuthorizer(api, name, pool)], nextId := a.nextId + 1)
  }

  function MethodPut(a: Account, api: Id, path: string, httpMethod: string, auth: MethodAuth): (r: Account)
    ensures Consistent(a) ==> Consistent(r)
  {
    a.(calls := a.calls + [Call.PutMethod(api, path, httpMethod, auth)])
  }

  function IntegrationPut(a: Account, api: Id, path: string, httpMethod: string, fn: Id): (r: Account)
    ensures Consistent(a) ==> Consistent(r)
  {
    a.(calls := a.calls + [Call.PutIntegration(api, path, httpMethod, fn)])
  }

  function Deployed(a: Account, api: Id, stage: string): (r: Account)
    ensures Consistent(a) ==> Consistent(r)
  {
    a.(calls := a.calls + [Call.CreateDeployment(api, stage)])
  }

  function RestApiDeleted(a: Account, api: Id): (r: Account)
    ensures Consistent(a) ==> Consistent(r)
  {
    RemoveIdKeeps(a.apis, api, a.nextId);
    a.(apis := RemoveId(a.apis, api), calls := a.calls + [Call.DeleteRestApi(api)])
  }

  /** The account behind the boto3 clients; one method per client call. */
  class Provider {
    var builds: seq<Named<BuildStatus>>
    var fleets: seq<Named<Id>>
    var pools: seq<Named<PoolInfo>>
    var roles: seq<Named<RoleInfo>>
    var functions: seq<Named<FunctionInfo>>
    var apis: seq<Named<()>>
    var calls: seq<Call>
    var nextId: Id

    function Snapshot(): Account
      reads this
    {
      Account(builds, fleets, pools, roles, functions, apis, calls, nextId)
    }

    ghost predicate Valid()
      reads this
    {
      Consistent(Snapshot())
    }

    constructor (initial: Account)
      requires Consistent(initial)
      ensures Valid() && Snapshot() == initial
    {
      builds, fleets, pools, roles := initial.builds, initial.fleets, initial.pools, initial.roles;
      functions, apis, calls, nextId := initial.functions, initial.apis, initial.calls, initial.nextId;
    }

    /** Makes the account equal to `a`: how each call below applies its effect. */
    method Become(a: Account)
      modifies this
      ensures Snapshot() == a
    {
      builds, fleets, pools, roles := a.builds, a.fleets, a.pools, a.roles;
      functions, apis, calls, nextId := a.functions, a.apis, a.calls, a.nextId;
    }

    method DescribeBuild(build: Id) returns (status: Option<BuildStatus>)
      requires Valid()
      modifies this
      ensures Valid()
      ensures status == InfoOf(old(builds), build)
      ensures Snapshot() == Described(old(Snapshot()), build)
    {
      status := InfoOf(builds, build);
      calls := calls + [Call.DescribeBuild(build)];
    }

    /** Not a client call: the provider advancing a build while the backend sleeps. */
    method Settle(build: Id, status: BuildStatus)
      requires Valid()
      modifies this
      ensures Valid()
      ensures Snapshot() == Settled(old(Snapshot()), build, status)
    {
      Become(Settled(Snapshot(), build, status));
    }

    /** Not a client call: what the `upload-build` tool does to the account. */
    method UploadBuild(name: string) returns (build: Id)
      requires Valid()
      modifies this
      ensures Valid()
      ensures build == old(nextId)
      ensures Snapshot() == BuildUploaded(old(Snapshot()), name)
    {
      build := nextId;
      Become(BuildUploaded(Snapshot(), name));
    }

    method DeleteBuild(build: Id)
      requires Valid()
      modifies this
      ensures Valid()
      ensures Snapshot() == BuildDeleted(old(Snapshot()), build)
    {
      Become(BuildDeleted(Snapshot(), build));
    }

    method CreateFleet(name: string, build: Id) returns (fleet: Id)
      requires Valid()
      modifies this
      ensures Valid()
      ensures fleet == old(nextId)
      ensures Snapshot() == FleetCreated(old(Snapshot()), name, build)
    {
      fleet := nextId;
      Become(FleetCreated(Snapshot(), name, build));
    }

    method DeleteFleet(fleet: Id)
      requires Valid()
      modifies this
      ensures Valid()
      ensures Snapshot() == FleetDeleted(old(Snapshot()), fleet)
    {
      Become(FleetDeleted(Snapshot(), fleet));
    }

    method CreateUserPool(name: string) returns (pool: Id)
      requires Valid()
      modifies this
      ensures Valid()
      ensures pool == old(nextId)
      ensures Snapshot() == PoolCreated(old(Snapshot()), name)
    {
      pool := nextId;
      Become(PoolCreated(Snapshot(), name));
    }

    method CreateUserPoolClient(pool: Id, name: string) returns (client: Id)
      requires Valid() && InfoOf(pools, pool).Some?
      modifies this
      ensures Valid()
      ensures client == old(nextId)
      ensures Snapshot() == ClientCreated(old(Snapshot()), pool, name)
    {
      client := nextId;
      Become(ClientCreated(Snapshot(), pool, name));
    }

    method EnableEmailAutoVerify(pool: Id)
      requires Valid() && InfoOf(pools, pool).Some?
      modifies this
      ensures Valid()
      ensures Snapshot() == EmailAutoVerifyEnabled(old(Snapshot()), pool)
    {
      Become(EmailAutoVerifyEnabled(Snapshot(), pool));
    }

    method CreateUserPoolDomain(pool: Id, domain: string)
      requires Valid() && InfoOf(pools, pool).Some?
      modifies this
      ensures Valid()
      ensures Snapshot() == DomainCreated(old(Snapshot()), pool, domain)
    {
      Become(DomainCreated(Snapshot(), pool, domain));
    }

    method DeleteUserPoolDomain(pool: Id, domain: string)
      requires Valid() && InfoOf(pools, pool).Some?
      modifies this
      ensures Valid()
      ensures Snapshot() == DomainDeleted(old(Snapshot()), pool, domain)
    {
      Become(DomainDeleted(Snapshot(), pool, domain));
    }

    method DeleteUserPool(pool: Id)
      requires Valid()
      modifies this
      ensures Valid()
      ensures Snapshot() == PoolDeleted(old(Snapshot()), pool)
    {
      Become(PoolDeleted(Snapshot(), pool));
    }

    method CreateRole(name: string, trust: PolicyDocument) returns (arn: Id)
      requires Valid()
      modifies this
      ensures Valid()
      ensures arn == old(nextId)
      ensures Snapshot() == RoleCreated(old(Snapshot()), name, trust)
    {
      arn := nextId;
      Become(RoleCreated(Snapshot(), name, trust));
    }

    method PutRolePolicy(role: string, policy: string, doc: PolicyDocument)
      requires Valid() && FirstNamed(roles, role).Some?
      modifies this
      ensures Valid()
      ensures Snapshot() == RolePolicyPut(old(Snapshot()), role, policy, doc)
    {
      Become(RolePolicyPut(Snapshot(), role, policy, doc));
    }

    /** A name already taken makes the call fail (`ResourceConflictException`) and change nothing. */
    method CreateFunction(name: string, role: Id, code: string) returns (arn: Option<Id>)
      requires Valid()
      modifies this
      ensures Valid()
      ensures arn.None? <==> FirstId(old(functions), name).Some?
      ensures arn.Some? ==> arn.value == old(nextId) && Snapshot() == FunctionCreated(old(Snapshot()), name, role, code)
      ensures arn.None? ==> Snapshot() == old(Snapshot())
    {
      if FirstId(functions, name).Some? {
        return None;
      }
      arn := Some(nextId);
      Become(FunctionCreated(Snapshot(), name, role, code));
    }

    method DeleteFunction(fn: Id)
      requires Valid()
      modifies this
      ensures Valid()
      ensures Snapshot() == FunctionDeleted(old(Snapshot()), fn)
    {
      Become(FunctionDeleted(Snapshot(), fn));
    }

    method CreateRestApi(name: string) returns (api: Id)
      requires Valid()
      modifies this
      ensures Valid()
      ensures api == old(nextId)
      ensures Snapshot() == RestApiCreated(old(Snapshot()), name)
    {
      api := nextId;
      Become(RestApiCreated(Snapshot(), name));
    }

    method CreateAuthorizer(api: Id, name: string, pool: Id) returns (authorizer: Id)
      requires Valid()
      modifies this
      ensures Valid()
      ensures authorizer == old(nextId)
      ensures Snapshot() == AuthorizerCreated(old(Snapshot()), api, name, pool)
    {
      authorizer := nextId;
      Become(AuthorizerCreated(Snapshot(), api, name, pool));
    }

    method PutMethod(api: Id, path: string, httpMethod: string, auth: MethodAuth)
      requires Valid()
      modifies this
      ensures Valid()
      ensures Snapshot() == MethodPut(old(Snapshot()), api, path, httpMethod, auth)
    {
      Become(MethodPut(Snapshot(), api, path, httpMethod, auth));
    }

    method PutIntegration(api: Id, path: string, httpMethod: string, fn: Id)
      requires Valid()
      modifies this
      ensures Valid()
      ensures Snapshot() == IntegrationPut(old(Snapshot()), api, path, httpMethod, fn)
    {
      Become(IntegrationPut(Snapshot(), api, path, httpMethod, fn));
    }

    method CreateDeployment(api: Id, stage: string)
      requires Valid()
      modifies this
      ensures Valid()
      ensures Snapshot() == Deployed(old(Snapshot()), api, stage)
    {
      Become(Deployed(Snapshot(), api, stage));
    }

    method DeleteRestApi(api: Id)
      requires Valid()
      modifies this
      ensures Valid()
      ensures Snapshot() == RestApiDeleted(old(Snapshot()), api)
    {
      Become(RestApiDeleted(Snapshot(), api));
    }
  }
}
