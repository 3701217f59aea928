/**
 * What each create and delete handler of the backend does to the account, as functions
 * of the account before it runs. A handler either completes, raises (the Python
 * exception that ends the run), or is still waiting on a build that never became ready
 * within the provider progress the model was given.
 */
module Effects {
  import opened Wrappers
  import opened Text
  import opened Records
  import opened Cloud
  import opened Locator
  import opened Settings

  /** The exceptions a handler lets escape. */
  datatype Failure =
    | FleetResponseUnbound  // create_fleet found no build, then logs a response it never assigned
    | FleetIdMissing        // create_lambdas concatenates a missing fleet id into a string
    | ClientIdMissing       // create_lambdas concatenates a missing app client id into a string
    | PoolIdMissing         // create_rest_api describes a user pool it could not find
    | FunctionArnMissing    // create_rest_resource binds a method to a lambda that does not exist
    | FunctionExists        // create_lambda creates a function whose name is taken

  datatype Outcome = Completed | Raised(failure: Failure) | StillPolling

  /** The account after a handler, and how the handler ended. */
  datatype Step = Step(account: Account, outcome: Outcome)

  /**
   * What the world outside the account supplies: the upload tool's stdout and stderr, the
   * status the build has after each one-second sleep of the readiness poll, and the text
   * of the two lambda handler files.
   */
  datatype Env = Env(
    uploadOut: string, uploadErr: string, buildProgress: seq<BuildStatus>,
    sessionSource: string, loginSource: string)

  // create_build

  const BuildIdMarker: string := "Build ID: "

  /** The group of `Build ID: (.*)`: the rest of the line after the first marker, if any. */
  function ExtractBuildId(stdout: string): (r: Option<string>)
    ensures r.None? <==> !Contains(stdout, BuildIdMarker)
    ensures r.Some? ==> '\n' !in r.value
  {
    match Find(stdout, BuildIdMarker)
    case None => None
    case Some(i) => Some(TakeLine(stdout[i + |BuildIdMarker|..]))
  }

  /** What create_build logs: the build id, or that the upload failed together with the tool's stderr. */
  datatype UploadReport = Uploaded(buildId: string) | UploadFailed(stderr: string)

  function UploadReported(stdout: string, stderr: string): (r: UploadReport)
    ensures r.Uploaded? <==> Contains(stdout, BuildIdMarker)
    ensures r.Uploaded? ==> '\n' !in r.buildId
    ensures r.UploadFailed? ==> r.stderr == stderr
  {
    match ExtractBuildId(stdout)
    case Some(id) => Uploaded(id)
    case None => UploadFailed(stderr)
  }

  /**
   * create_build: the upload tool registers a build of the configured name when, and only
   * when, its output carries a build id; the id is then logged, otherwise the tool's stderr.
   */
  function CreateBuildSpec(a: Account, n: Names, env: Env): (r: Step)
    ensures r.outcome == Completed
    ensures Contains(env.uploadOut, BuildIdMarker) ==>
      r.account.builds == a.builds + [Named(n.build, a.nextId, Initialized)] && r.account.nextId == a.nextId + 1
    ensures !Contains(env.uploadOut, BuildIdMarker) ==> r.account == a
    ensures r.account == a.(builds := r.account.builds, calls := r.account.calls, nextId := r.account.nextId)
    ensures Consistent(a) ==> Consistent(r.account)
  {
    match UploadReported(env.uploadOut, env.uploadErr)
    case Uploaded(_) => Step(BuildUploaded(a, n.build), Completed)
    case UploadFailed(_) => Step(a, Completed)
  }

  // create_fleet

  /** The statuses the poll sees: the one before any sleep, then one after each sleep. */
  function Reports(a: Account, build: Id, progress: seq<BuildStatus>): seq<Option<BuildStatus>> {
    [InfoOf(a.builds, build)] + seq(|progress|, i requires 0 <= i < |progress| => Some(progress[i]))
  }

  /**
   * The readiness poll from a state just before a `describe_build`: describe, stop when the
   * build is READY, otherwise let the provider advance the build and describe again. When
   * the given progress runs out first, the poll is still waiting.
   */
  function PollFrom(a: Account, build: Id, progress: seq<BuildStatus>): (r: Step)
    ensures r.outcome == Completed || r.outcome == StillPolling
    ensures r.account == a.(builds := r.account.builds, calls := r.account.calls)
    ensures SameKeys(a.builds, r.account.builds)
    ensures Consistent(a) ==> Consistent(r.account)
    decreases |progress|
  {
    var described := Described(a, build);
    if InfoOf(a.builds, build) == Some(Ready) then Step(described, Completed)
    else if progress == [] then Step(described, StillPolling)
    else PollFrom(Settled(described, build, progress[0]), build, progress[1..])
  }

  /** create_fleet: find the build by name, wait for READY, then create one fleet running it. */
  function CreateFleetSpec(a: Account, n: Names, progress: seq<BuildStatus>): (r: Step)
    ensures FirstId(a.builds, n.build).None? ==> r == Step(a, Raised(FleetResponseUnbound))
    ensures r.outcome == Completed ==>
      FirstId(a.builds, n.build).Some? &&
      r.account.fleets == a.fleets + [Named(n.fleet, a.nextId, FirstId(a.builds, n.build).value)]
    ensures r.outcome != Completed ==> r.account.fleets == a.fleets
    ensures r.account == a.(builds := r.account.builds, fleets := r.account.fleets,
      calls := r.account.calls, nextId := r.account.nextId)
    ensures SameKeys(a.builds, r.account.builds)
    ensures Consistent(a) ==> Consistent(r.account)
  {
    match FirstId(a.builds, n.build)
    case None => Step(a, Raised(FleetResponseUnbound))
    case Some(build) =>
      var polled := PollFrom(a, build, progress);
      if polled.outcome != Completed then polled
      else Step(FleetCreated(polled.account, n.fleet, build), Completed)
  }

  // create_user_pool

  /** create_user_pool: unless a pool of that name is on the first page, create it with its client, e-mail verification and domain. */
  function CreateUserPoolSpec(a: Account, n: Names): (r: Step)
    ensures r.outcome == Completed
    ensures r.account == a <==> PoolId(a.pools, n.userPool).Some?
    ensures r.account == a.(pools := r.account.pools, calls := r.account.calls, nextId := r.account.nextId)
    ensures Consistent(a) ==> Consistent(r.account)
  {
    if PoolId(a.pools, n.userPool).Some? then Step(a, Completed)
    else
      var pool := a.nextId;
      var created := PoolCreated(a, n.userPool);
      var withClient := ClientCreated(created, pool, n.loginClient);
      var verified := EmailAutoVerifyEnabled(withClient, pool);
      Step(DomainCreated(verified, pool, n.subdomain), Completed)
  }

  // create_lambdas

  const SessionRoleName: string := "gl_session_lambda_role"
  const SessionPolicyName: string := "gl_session_policy"
  const LoginRoleName: string := "gl_cognito_lambda_role"
  const LoginPolicyName: string := "cognito_auth"

  const FleetIdPlaceholder: string := "GAMELIFT_FLEET_ID = \"\""
  const ClientIdPlaceholder: string := "USER_POOL_APP_CLIENT_ID = ''"

  function FleetIdAssignment(fleetId: string): string {
    "GAMELIFT_FLEET_ID = \"" + fleetId + "\""
  }

  function ClientIdAssignment(clientId: string): string {
    "USER_POOL_APP_CLIENT_ID = \"" + clientId + "\""
  }

  /**
   * create_lambda_role: reuse the role of that name or create it with the trust policy,
   * then put the inline policy on it. The second component is the role's arn.
   */
  function LambdaRoleEnsured(a: Account, role: string, trust: PolicyDocument, policy: string, doc: PolicyDocument): (r: (Account, Id))
    ensures FirstId(r.0.roles, role) == Some(r.1)
    ensures FirstNamed(a.roles, role).Some? ==> r.1 == FirstNamed(a.roles, role).value.id && |r.0.roles| == |a.roles|
    ensures FirstNamed(a.roles, role).None? ==> r.1 == a.nextId && |r.0.roles| == |a.roles| + 1
    ensures r.0 == a.(roles := r.0.roles, calls := r.0.calls, nextId := r.0.nextId)
    ensures forall other :: FirstId(a.roles, other).Some? ==> FirstId(r.0.roles, other) == FirstId(a.roles, other)
    ensures Consistent(a) ==> Consistent(r.0)
  {
    match FirstNamed(a.roles, role)
    case Some(found) => (RolePolicyPut(a, role, policy, doc), found.id)
    case None =>
      var created := RoleCreated(a, role, trust);
      FirstNamedAppend(a.roles, Named(role, a.nextId, RoleInfo(trust, map[])), role);
      (RolePolicyPut(created, role, policy, doc), a.nextId)
  }

  /** The handler text after `if replace_old: filedata = filedata.replace(replace_old, replace_new)`. */
  function Substituted(source: string, placeholder: string, value: string): (code: string)
    ensures placeholder != [] && Contains(source, placeholder) ==> Contains(code, value)
    ensures placeholder == [] || !Contains(source, placeholder) ==> code == source
  {
    if placeholder == [] then source
    else if Contains(source, placeholder) then
      ReplaceInserts(source, placeholder, value);
      Replace(source, placeholder, value)
    else
      ReplaceAbsent(source, placeholder, value);
      Replace(source, placeholder, value)
  }

  /** create_lambda: package the substituted handler and create the function; a taken name raises. */
  function LambdaCreated(a: Account, name: string, role: Id, source: string, placeholder: string, value: string): (r: Step)
    ensures r.outcome == Completed <==> FirstId(a.functions, name).None?
    ensures r.outcome == Completed ==>
      r.account.functions == a.functions + [Named(name, a.nextId, FunctionInfo(role, Substituted(source, placeholder, value)))]
    ensures r.outcome != Completed ==> r == Step(a, Raised(FunctionExists))
    ensures r.account == a.(functions := r.account.functions, calls := r.account.calls, nextId := r.account.nextId)
    ensures Consistent(a) ==> Consistent(r.account)
  {
    if FirstId(a.functions, name).Some? then Step(a, Raised(FunctionExists))
    else Step(FunctionCreated(a, name, role, Substituted(source, placeholder, value)), Completed)
  }

  /**
   * create_lambdas: ensure both roles, then create the start-session lambda with the fleet id
   * spliced in and the login lambda with the app client id spliced in.
   */
  function CreateLambdasSpec(a: Account, n: Names, env: Env): (r: Step)
    ensures r.outcome != StillPolling
    ensures Consistent(a) ==> Consistent(r.account)
  {
    var (withSession, sessionRole) := LambdaRoleEnsured(a, SessionRoleName, LambdaTrust, SessionPolicyName, GameLiftSessionAccess);
    var (withRoles, loginRole) := LambdaRoleEnsured(withSession, LoginRoleName, LambdaTrust, LoginPolicyName, CognitoInitiateAuth);
    match FirstId(withRoles.fleets, n.fleet)
    case None => Step(withRoles, Raised(FleetIdMissing))
    case Some(fleet) =>
      var session := LambdaCreated(withRoles, n.lambdaStartSession, sessionRole, env.sessionSource,
        FleetIdPlaceholder, FleetIdAssignment(IdText(fleet)));
      if session.outcome != Completed then session
      else
        match ClientId(session.account.pools, n.userPool, n.loginClient)
        case None => Step(session.account, Raised(ClientIdMissing))
        case Some(client) =>
          LambdaCreated(session.account, n.lambdaLogin, loginRole, env.loginSource,
            ClientIdPlaceholder, ClientIdAssignment(IdText(client)))
  }

  // create_rest_api

  /** The authorization of a method: Cognito user pools when an authorizer id is given, none otherwise. */
  function MethodAuthFor(authorizer: Option<Id>): (auth: MethodAuth)
    ensures auth.CognitoUserPools? <==> authorizer.Some?
    ensures auth.CognitoUserPools? ==> auth.authorizer == authorizer.value
  {
    match authorizer
    case Some(id) => CognitoUserPools(id)
    case None => NoAuth
  }

  /**
   * create_rest_resource, reduced to its method and its lambda integration: the method is put
   * with the chosen authorization, and a missing lambda makes the integration step raise.
   */
  function ResourceWired(a: Account, api: Id, path: string, httpMethod: string, fn: Option<Id>, authorizer: Option<Id>): (r: Step)
    ensures r.outcome == Completed <==> fn.Some?
    ensures r.account == a.(calls := r.account.calls)
    ensures r.account.calls == a.calls + [Call.PutMethod(api, path, httpMethod, MethodAuthFor(authorizer))]
      + (if fn.Some? then [Call.PutIntegration(api, path, httpMethod, fn.value)] else [])
    ensures Consistent(a) ==> Consistent(r.account)
  {
    var methodPut := MethodPut(a, api, path, httpMethod, MethodAuthFor(authorizer));
    match fn
    case None => Step(methodPut, Raised(FunctionArnMissing))
    case Some(arn) => Step(IntegrationPut(methodPut, api, path, httpMethod, arn), Completed)
  }

  /**
   * create_rest_api: unless an API of that name exists, create it, create the Cognito
   * authorizer on the pool, open POST on the login path, put GET on the start-session path
   * behind the authorizer, and deploy the stage.
   */
  function CreateRestApiSpec(a: Account, n: Names): (r: Step)
    ensures r.outcome != StillPolling
    ensures r.account == a <==> FirstId(a.apis, n.restApi).Some?
    ensures FirstId(a.apis, n.restApi).None? ==> r.account.apis == a.apis + [Named(n.restApi, a.nextId, ())]
    ensures r.account == a.(apis := r.account.apis, calls := r.account.calls, nextId := r.account.nextId)
    ensures Consistent(a) ==> Consistent(r.account)
  {
    if FirstId(a.apis, n.restApi).Some? then Step(a, Completed)
    else
      var api := a.nextId;
      var created := RestApiCreated(a, n.restApi);
      match PoolId(created.pools, n.userPool)
      case None => Step(created, Raised(PoolIdMissing))
      case Some(pool) =>
        var authorizer := created.nextId;
        var authorized := AuthorizerCreated(created, api, n.authorizer, pool);
        var login := ResourceWired(authorized, api, n.loginPath, "POST",
          FirstId(authorized.functions, n.lambdaLogin), None);
        if login.outcome != Completed then login
        else
          var session := ResourceWired(login.account, api, n.startSessionPath, "GET",
            FirstId(login.account.functions, n.lambdaStartSession), Some(authorizer));
          if session.outcome != Completed then session
          else Step(Deployed(session.account, api, n.stage), Completed)
  }

  // The delete handlers; each of them always completes.

  /** delete_build: every build of that name is deleted, one call each, in list order. */
  function DeleteBuildSpec(a: Account, n: Names): (r: Account)
    ensures FirstNamed(r.builds, n.build).None?
    ensures r == a.(builds := r.builds, calls := r.calls)
    ensures Consistent(a) ==> Consistent(r)
  {
    var kept := WithoutName(a.builds, n.build);
    NoneLeft(a.builds, n.build);
    WithoutNameKeeps(a.builds, n.build, a.nextId);
    a.(builds := kept,
       calls := a.calls + BuildDeletions(NamedIds(a.builds, n.build)))
  }

  /** delete_fleet: the first fleet of that name, if any, is deleted. */
  function DeleteFleetSpec(a: Account, n: Names): (r: Account)
    ensures r == a.(fleets := r.fleets, calls := r.calls)
    ensures Consistent(a) ==> Consistent(r)
  {
    match FirstId(a.fleets, n.fleet)
    case None => a
    case Some(fleet) => FleetDeleted(a, fleet)
  }

  /** delete_user_pool: the pool found on the first page loses its domain, if it has one, and is deleted. */
  function DeleteUserPoolSpec(a: Account, n: Names): (r: Account)
    ensures PoolId(a.pools, n.userPool).None? ==> r == a
    ensures r == a.(pools := r.pools, calls := r.calls)
    ensures Consistent(a) ==> Consistent(r)
  {
    match PoolId(a.pools, n.userPool)
    case None => a
    case Some(pool) =>
      var info := InfoOf(a.pools, pool);
      if info.Some? && info.value.domain.Some? then
        PoolDeleted(DomainDeleted(a, pool, info.value.domain.value), pool)
      else
        PoolDeleted(a, pool)
  }

  /** delete_lambdas: the start-session lambda, then the login lambda, each if found. Roles stay. */
  function DeleteLambdasSpec(a: Account, n: Names): (r: Account)
    ensures r == a.(functions := r.functions, calls := r.calls)
    ensures Consistent(a) ==> Consistent(r)
  {
    var first := match FirstId(a.functions, n.lambdaStartSession)
      case None => a
      case Some(fn) => FunctionDeleted(a, fn);
    match FirstId(first.functions, n.lambdaLogin)
    case None => first
    case Some(fn) => FunctionDeleted(first, fn)
  }

  /** delete_rest_api: every REST API of that name is deleted, one call each, in list order. */
  function DeleteRestApiSpec(a: Account, n: Names): (r: Account)
    ensures FirstNamed(r.apis, n.restApi).None?
    ensures r == a.(apis := r.apis, calls := r.calls)
    ensures Consistent(a) ==> Consistent(r)
  {
    var kept := WithoutName(a.apis, n.restApi);
    NoneLeft(a.apis, n.restApi);
    WithoutNameKeeps(a.apis, n.restApi, a.nextId);
    a.(apis := kept,
       calls := a.calls + RestApiDeletions(NamedIds(a.apis, n.restApi)))
  }

  // Properties of the handlers.

  /** The id is the rest of the line that carries the first marker, whatever follows that line. */
  lemma {:induction false} ExtractBuildIdRoundTrip(before: string, id: string, after: string)
    requires !Contains(before, BuildIdMarker)
    requires before == [] || before[|before| - 1] == '\n'
    requires '\n' !in id
    ensures ExtractBuildId(before + BuildIdMarker + id + "\n" + after) == Some(id)
  {
    assert '\n' !in BuildIdMarker;
    MarkedLine(before, BuildIdMarker, id, after);
  }

  /** One round of the poll: the build stays listed with the status the provider gave it. */
  lemma SettledReports(a: Account, build: Id, progress: seq<BuildStatus>)
    requires InfoOf(a.builds, build).Some? && progress != []
    ensures var next := Settled(Described(a, build), build, progress[0]);
      && InfoOf(next.builds, build).Some?
      && Reports(next, build, progress[1..]) == Reports(a, build, progress)[1..]
  {
    RetagPresent(a.builds, build, progress[0]);
  }

  /** A poll whose `waits`-th report is the first READY one makes `waits + 1` describe calls and completes. */
  lemma {:induction false} PollWaits(a: Account, build: Id, progress: seq<BuildStatus>, waits: nat)
    requires InfoOf(a.builds, build).Some?
    requires waits < |Reports(a, build, progress)| && Reports(a, build, progress)[waits] == Some(Ready)
    requires forall i :: 0 <= i < waits ==> Reports(a, build, progress)[i] != Some(Ready)
    ensures PollFrom(a, build, progress).outcome == Completed
    ensures PollFrom(a, build, progress).account.calls == a.calls + Describes(build, waits + 1)
    decreases waits
  {
    var rs := Reports(a, build, progress);
    if waits == 0 {
      assert Describes(build, 1) == [Call.DescribeBuild(build)];
    } else {
      assert rs[0] != Some(Ready);
      var next := Settled(Described(a, build), build, progress[0]);
      SettledReports(a, build, progress);
      PollWaits(next, build, progress[1..], waits - 1);
      assert [Call.DescribeBuild(build)] + Describes(build, waits) == Describes(build, waits + 1);
    }
  }

  /** A poll that never sees READY describes once per report and is still waiting. */
  lemma {:induction false} PollGivesUp(a: Account, build: Id, progress: seq<BuildStatus>)
    requires InfoOf(a.builds, build).Some?
    requires forall i :: 0 <= i < |Reports(a, build, progress)| ==> Reports(a, build, progress)[i] != Some(Ready)
    ensures PollFrom(a, build, progress).outcome == StillPolling
    ensures PollFrom(a, build, progress).account.calls == a.calls + Describes(build, |progress| + 1)
    decreases |progress|
  {
    var rs := Reports(a, build, progress);
    assert rs[0] != Some(Ready);
    if progress == [] {
      assert Describes(build, 1) == [Call.DescribeBuild(build)];
    } else {
      var next := Settled(Described(a, build), build, progress[0]);
      SettledReports(a, build, progress);
      PollGivesUp(next, build, progress[1..]);
      assert [Call.DescribeBuild(build)] + Describes(build, |progress|) == Describes(build, |progress| + 1);
    }
  }

  /**
   * create_fleet waits for the build: when its first `waits` reports are not READY and the
   * next one is, exactly `waits + 1` describe calls precede the one fleet creation.
   */
  lemma CreateFleetWaits(a: Account, n: Names, progress: seq<BuildStatus>, waits: nat)
    requires FirstId(a.builds, n.build).Some?
    requires var rs := Reports(a, FirstId(a.builds, n.build).value, progress);
      waits < |rs| && rs[waits] == Some(Ready) && forall i :: 0 <= i < waits ==> rs[i] != Some(Ready)
    ensures var build := FirstId(a.builds, n.build).value;
      var r := CreateFleetSpec(a, n, progress);
      && r.outcome == Completed
      && r.account.calls == a.calls + Describes(build, waits + 1) + [Call.CreateFleet(n.fleet, build)]
      && r.account.fleets == a.fleets + [Named(n.fleet, a.nextId, build)]
  {
    var build := FirstId(a.builds, n.build).value;
    FirstNamedIsFirstMatch(a.builds, n.build);
    InfoOfPresent(a.builds, build);
    PollWaits(a, build, progress, waits);
  }

  /** A build that never reports READY within the given progress: describe calls only, no fleet. */
  lemma CreateFleetKeepsWaiting(a: Account, n: Names, progress: seq<BuildStatus>)
    requires FirstId(a.builds, n.build).Some?
    requires var rs := Reports(a, FirstId(a.builds, n.build).value, progress);
      forall i :: 0 <= i < |rs| ==> rs[i] != Some(Ready)
    ensures var build := FirstId(a.builds, n.build).value;
      var r := CreateFleetSpec(a, n, progress);
      && r.outcome == StillPolling
      && r.account.calls == a.calls + Describes(build, |progress| + 1)
      && r.account.fleets == a.fleets
  {
    var build := FirstId(a.builds, n.build).value;
    FirstNamedIsFirstMatch(a.builds, n.build);
    InfoOfPresent(a.builds, build);
    PollGivesUp(a, build, progress);
  }

  /** The pool create_user_pool makes: its login client, e-mail auto-verification and domain, in four calls. */
  lemma CreateUserPoolCreates(a: Account, n: Names)
    requires WellIdentified(a.pools, a.nextId) && PoolId(a.pools, n.userPool).None?
    ensures var pool := a.nextId;
      var r := CreateUserPoolSpec(a, n).account;
      && r.pools == a.pools + [Named(n.userPool, pool,
           PoolInfo([Named(n.loginClient, pool + 1, ())], Some(n.subdomain), true))]
      && r.calls == a.calls + [
           Call.CreateUserPool(n.userPool), Call.CreateUserPoolClient(pool, n.loginClient),
           Call.EnableEmailAutoVerify(pool), Call.CreateUserPoolDomain(pool, n.subdomain)]
      && r.nextId == pool + 2
  {
    var pool := a.nextId;
    var blank := Named(n.userPool, pool, PoolInfo([], None, false));
    var withClient := PoolInfo([Named(n.loginClient, pool + 1, ())], None, false);
    var verified := withClient.(emailAutoVerified := true);
    assert forall i :: 0 <= i < |a.pools| ==> a.pools[i].id != pool;
    var created := PoolCreated(a, n.userPool);
    LastPoolUpdated(created, a.pools, blank, withClient);
    assert blank.info.clients + [Named(n.loginClient, pool + 1, ())] == withClient.clients;
    var clientMade := ClientCreated(created, pool, n.loginClient);
    LastPoolUpdated(clientMade, a.pools, blank.(info := withClient), verified);
    var verifiedMade := EmailAutoVerifyEnabled(clientMade, pool);
    LastPoolUpdated(verifiedMade, a.pools, blank.(info := verified), verified.(domain := Some(n.subdomain)));
    var r := DomainCreated(verifiedMade, pool, n.subdomain);
    assert CreateUserPoolSpec(a, n).account == r;
    assert r.calls == a.calls + [Call.CreateUserPool(n.userPool)] + [Call.CreateUserPoolClient(pool, n.loginClient)]
      + [Call.EnableEmailAutoVerify(pool)] + [Call.CreateUserPoolDomain(pool, n.subdomain)];
  }

  /** Updating the pool that was appended last updates only that pool. */
  lemma LastPoolUpdated(a: Account, base: seq<Named<PoolInfo>>, last: Named<PoolInfo>, info: PoolInfo)
    requires a.pools == base + [last]
    requires forall i :: 0 <= i < |base| ==> base[i].id != last.id
    ensures InfoOf(a.pools, last.id) == Some(last.info)
    ensures WithPoolInfo(a, last.id, info).pools == base + [last.(info := info)]
  {
    RetagAppended(base, last, info);
  }

  /** While all pools fit on one page, a second create_user_pool changes nothing. */
  lemma CreateUserPoolIdempotent(a: Account, n: Names)
    requires Consistent(a) && |a.pools| < MaxResults
    ensures var once := CreateUserPoolSpec(a, n).account;
      CreateUserPoolSpec(once, n) == Step(once, Completed)
  {
    if PoolId(a.pools, n.userPool).None? {
      CreateUserPoolCreates(a, n);
      var once := CreateUserPoolSpec(a, n).account;
      var made := once.pools[|a.pools|];
      assert once.pools == a.pools + [made];
      FirstNamedAppend(a.pools, made, n.userPool);
    }
  }

  /** A pool of the name listed past the first sixty is not seen, and a second pool of that name is made. */
  lemma CreateUserPoolPastFirstPage(a: Account, n: Names, i: nat)
    requires Consistent(a)
    requires MaxResults <= i < |a.pools| && a.pools[i].name == n.userPool
    requires forall j :: 0 <= j < MaxResults ==> a.pools[j].name != n.userPool
    ensures FirstNamed(a.pools, n.userPool).Some?
    ensures var r := CreateUserPoolSpec(a, n).account;
      |r.pools| == |a.pools| + 1 && r.pools[|a.pools|].name == n.userPool
  {
    PageMissesLaterRecords(a.pools, n.userPool, i);
    CreateUserPoolCreates(a, n);
  }

  /**
   * A second create_rest_api changes nothing, however the first one ended: the API is made
   * before anything can fail, so a failed run leaves it in place and blocks the retry.
   */
  lemma CreateRestApiIdempotent(a: Account, n: Names)
    ensures var once := CreateRestApiSpec(a, n).account;
      CreateRestApiSpec(once, n) == Step(once, Completed)
  {
    if FirstId(a.apis, n.restApi).None? {
      FirstNamedAppend(a.apis, Named(n.restApi, a.nextId, ()), n.restApi);
    }
  }

  /**
   * A completed create_rest_api: the API, the authorizer on the found pool, an open POST on the
   * login path, a GET on the start-session path behind that authorizer, and the deployment.
   */
  lemma CreateRestApiWiring(a: Account, n: Names)
    requires FirstId(a.apis, n.restApi).None? && CreateRestApiSpec(a, n).outcome == Completed
    ensures PoolId(a.pools, n.userPool).Some?
    ensures FirstId(a.functions, n.lambdaLogin).Some? && FirstId(a.functions, n.lambdaStartSession).Some?
    ensures var api := a.nextId;
      CreateRestApiSpec(a, n).account.calls == a.calls + [
        Call.CreateRestApi(n.restApi),
        Call.CreateAuthorizer(api, n.authorizer, PoolId(a.pools, n.userPool).value),
        Call.PutMethod(api, n.loginPath, "POST", NoAuth),
        Call.PutIntegration(api, n.loginPath, "POST", FirstId(a.functions, n.lambdaLogin).value),
        Call.PutMethod(api, n.startSessionPath, "GET", CognitoUserPools(api + 1)),
        Call.PutIntegration(api, n.startSessionPath, "GET", FirstId(a.functions, n.lambdaStartSession).value),
        Call.CreateDeployment(api, n.stage)]
  {
  }

  /** create_lambda_role issues create_role only when no role of that name exists; the policy is always put. */
  lemma LambdaRoleGetOrCreate(a: Account, role: string, trust: PolicyDocument, policy: string, doc: PolicyDocument)
    ensures var r := LambdaRoleEnsured(a, role, trust, policy, doc).0;
      r.calls == a.calls + (if FirstNamed(a.roles, role).Some? then [] else [Call.CreateRole(role)])
        + [Call.PutRolePolicy(role, policy)]
  {
  }

  /**
   * A completed create_lambdas made exactly two functions behind the existing ones: the
   * start-session handler carrying the fleet's id, running as `gl_session_lambda_role`, and the
   * login handler carrying the app client's id, running as `gl_cognito_lambda_role`, wherever
   * their sources have the placeholder. Beside the two roles nothing else in the account changes.
   */
  lemma CreateLambdasInjectsIds(a: Account, n: Names, env: Env)
    requires CreateLambdasSpec(a, n, env).outcome == Completed
    ensures FirstId(a.fleets, n.fleet).Some? && ClientId(a.pools, n.userPool, n.loginClient).Some?
    ensures var fns := CreateLambdasSpec(a, n, env).account.functions;
      var fleetId := IdText(FirstId(a.fleets, n.fleet).value);
      var clientId := IdText(ClientId(a.pools, n.userPool, n.loginClient).value);
      && |fns| == |a.functions| + 2
      && fns[|a.functions|].name == n.lambdaStartSession
      && fns[|a.functions|].info.code == Substituted(env.sessionSource, FleetIdPlaceholder, FleetIdAssignment(fleetId))
      && (Contains(env.sessionSource, FleetIdPlaceholder) ==> Contains(fns[|a.functions|].info.code, FleetIdAssignment(fleetId)))
      && !Contains(fns[|a.functions|].info.code, FleetIdPlaceholder)
      && fns[|a.functions| + 1].name == n.lambdaLogin
      && fns[|a.functions| + 1].info.code == Substituted(env.loginSource, ClientIdPlaceholder, ClientIdAssignment(clientId))
      && (Contains(env.loginSource, ClientIdPlaceholder) ==> Contains(fns[|a.functions| + 1].info.code, ClientIdAssignment(clientId)))
      && !Contains(fns[|a.functions| + 1].info.code, ClientIdPlaceholder)
  {
    FleetIdFullyReplaced(env.sessionSource, FirstId(a.fleets, n.fleet).value);
    ClientIdFullyReplaced(env.loginSource, ClientId(a.pools, n.userPool, n.loginClient).value);
  }

  /**
   * A completed create_lambdas keeps the functions that were there, runs the start-session
   * function as `gl_session_lambda_role` and the login function as `gl_cognito_lambda_role`,
   * and changes nothing but roles, functions, the call log and the next id.
   */
  lemma CreateLambdasKeeps(a: Account, n: Names, env: Env)
    requires CreateLambdasSpec(a, n, env).outcome == Completed
    ensures var r := CreateLambdasSpec(a, n, env).account;
      r == a.(roles := r.roles, functions := r.functions, calls := r.calls, nextId := r.nextId)
    ensures var r := CreateLambdasSpec(a, n, env).account;
      && |r.functions| == |a.functions| + 2
      && r.functions[..|a.functions|] == a.functions
      && FirstId(r.roles, SessionRoleName) == Some(r.functions[|a.functions|].info.role)
      && FirstId(r.roles, LoginRoleName) == Some(r.functions[|a.functions| + 1].info.role)
  {
    var (withSession, sessionRole) := LambdaRoleEnsured(a, SessionRoleName, LambdaTrust, SessionPolicyName, GameLiftSessionAccess);
    var (withRoles, loginRole) := LambdaRoleEnsured(withSession, LoginRoleName, LambdaTrust, LoginPolicyName, CognitoInitiateAuth);
    assert FirstId(withRoles.roles, SessionRoleName) == Some(sessionRole);
    var fleet := FirstId(withRoles.fleets, n.fleet).value;
    var session := LambdaCreated(withRoles, n.lambdaStartSession, sessionRole, env.sessionSource,
      FleetIdPlaceholder, FleetIdAssignment(IdText(fleet)));
    var client := ClientId(session.account.pools, n.userPool, n.loginClient).value;
    var login := LambdaCreated(session.account, n.lambdaLogin, loginRole, env.loginSource,
      ClientIdPlaceholder, ClientIdAssignment(IdText(client)));
    assert CreateLambdasSpec(a, n, env) == login;
    var k := |a.functions|;
    assert login.account.functions == a.functions + [session.account.functions[k], login.account.functions[k + 1]];
  }

  /**
   * How create_lambdas stops early. Both roles exist by then. With no fleet of the name it
   * raises before creating any function; with a start-session name already taken it raises
   * with the functions as they were; with no app client of the name it raises after creating
   * only the start-session function.
   */
  lemma CreateLambdasStops(a: Account, n: Names, env: Env)
    ensures var r := CreateLambdasSpec(a, n, env);
      r.outcome != Completed ==> FirstId(r.account.roles, SessionRoleName).Some? && FirstId(r.account.roles, LoginRoleName).Some?
    ensures var r := CreateLambdasSpec(a, n, env);
      FirstId(a.fleets, n.fleet).None? ==>
        r.outcome == Raised(FleetIdMissing) && r.account.functions == a.functions
    ensures var r := CreateLambdasSpec(a, n, env);
      FirstId(a.fleets, n.fleet).Some? && FirstId(a.functions, n.lambdaStartSession).Some? ==>
        r.outcome == Raised(FunctionExists) && r.account.functions == a.functions
    ensures var r := CreateLambdasSpec(a, n, env);
      FirstId(a.fleets, n.fleet).Some? && FirstId(a.functions, n.lambdaStartSession).None?
        && ClientId(a.pools, n.userPool, n.loginClient).None? ==>
        && r.outcome == Raised(ClientIdMissing)
        && |r.account.functions| == |a.functions| + 1
        && r.account.functions[..|a.functions|] == a.functions
        && r.account.functions[|a.functions|].name == n.lambdaStartSession
  {
    var (withSession, sessionRole) := LambdaRoleEnsured(a, SessionRoleName, LambdaTrust, SessionPolicyName, GameLiftSessionAccess);
    var (withRoles, loginRole) := LambdaRoleEnsured(withSession, LoginRoleName, LambdaTrust, LoginPolicyName, CognitoInitiateAuth);
    assert FirstId(withRoles.roles, SessionRoleName).Some?;
  }

  /** No `GAMELIFT_FLEET_ID = ""` is left in the start-session handler once the fleet id is spliced in. */
  lemma FleetIdFullyReplaced(source: string, fleet: Id)
    ensures !Contains(Substituted(source, FleetIdPlaceholder, FleetIdAssignment(IdText(fleet))), FleetIdPlaceholder)
  {
    var pat := FleetIdPlaceholder;
    var digits := IdText(fleet);
    var rep := FleetIdAssignment(digits);
    IdTextDigits(fleet);
    assert |pat| == 22 && pat[21] == '"';
    assert rep == "GAMELIFT_FLEET_ID = \"" + digits + "\"";
    assert rep[21] == digits[0];
    forall k | 0 < k < |rep| ensures rep[k] != 'G' {
      if 21 <= k < 21 + |digits| { assert rep[k] == digits[k - 21]; }
    }
    if Contains(source, pat) {
      ReplaceLeavesNoPattern(source, pat, rep);
    }
  }

  /** No `USER_POOL_APP_CLIENT_ID = ''` is left in the login handler once the client id is spliced in. */
  lemma ClientIdFullyReplaced(source: string, client: Id)
    ensures !Contains(Substituted(source, ClientIdPlaceholder, ClientIdAssignment(IdText(client))), ClientIdPlaceholder)
  {
    var pat := ClientIdPlaceholder;
    var digits := IdText(client);
    var rep := ClientIdAssignment(digits);
    IdTextDigits(client);
    assert |pat| == 28 && pat[26] == '\'';
    assert rep == "USER_POOL_APP_CLIENT_ID = \"" + digits + "\"";
    assert rep[26] == '"';
    forall k | 0 < k < |rep| ensures rep[k] != 'U' {
      if 27 <= k < 27 + |digits| { assert rep[k] == digits[k - 27]; }
    }
    if Contains(source, pat) {
      ReplaceLeavesNoPattern(source, pat, rep);
    }
  }

  /**
   * delete_build leaves exactly the builds of other names, and issues one delete per build it
   * removes: every new call is a `delete_build` of a build with the name, and every build with
   * the name gets one.
   */
  lemma {:induction false} DeleteBuildRemovesAll(a: Account, n: Names)
    ensures var r := DeleteBuildSpec(a, n);
      && (forall b :: b in r.builds <==> b in a.builds && b.name != n.build)
      && |r.calls| - |a.calls| == |a.builds| - |r.builds|
      && r.calls[..|a.calls|] == a.calls
    ensures var r := DeleteBuildSpec(a, n);
      forall c :: c in r.calls[|a.calls|..] <==>
        c.DeleteBuild? && exists b :: b in a.builds && b.name == n.build && b.id == c.build
  {
    forall b ensures b in WithoutName(a.builds, n.build) <==> b in a.builds && b.name != n.build {
      WithoutNameMembers(a.builds, n.build, b);
    }
    NamedIdsCount(a.builds, n.build);
    var r := DeleteBuildSpec(a, n);
    var ids := NamedIds(a.builds, n.build);
    assert r.calls[|a.calls|..] == BuildDeletions(ids);
    forall c ensures c in BuildDeletions(ids) <==>
      c.DeleteBuild? && exists b :: b in a.builds && b.name == n.build && b.id == c.build
    {
      if c.DeleteBuild? {
        NamedIdsMember(a.builds, n.build, c.build);
        if c.build in ids {
          var k :| 0 <= k < |ids| && ids[k] == c.build;
          assert BuildDeletions(ids)[k] == c;
        }
      }
    }
  }

  /**
   * delete_rest_api leaves exactly the APIs of other names, and issues one delete per API it
   * removes: every new call is a `delete_rest_api` of an API with the name, and every API with
   * the name gets one.
   */
  lemma {:induction false} DeleteRestApiRemovesAll(a: Account, n: Names)
    ensures var r := DeleteRestApiSpec(a, n);
      && (forall x :: x in r.apis <==> x in a.apis && x.name != n.restApi)
      && |r.calls| - |a.calls| == |a.apis| - |r.apis|
      && r.calls[..|a.calls|] == a.calls
    ensures var r := DeleteRestApiSpec(a, n);
      forall c :: c in r.calls[|a.calls|..] <==>
        c.DeleteRestApi? && exists x :: x in a.apis && x.name == n.restApi && x.id == c.api
  {
    forall x ensures x in WithoutName(a.apis, n.restApi) <==> x in a.apis && x.name != n.restApi {
      WithoutNameMembers(a.apis, n.restApi, x);
    }
    NamedIdsCount(a.apis, n.restApi);
    var r := DeleteRestApiSpec(a, n);
    var ids := NamedIds(a.apis, n.restApi);
    assert r.calls[|a.calls|..] == RestApiDeletions(ids);
    forall c ensures c in RestApiDeletions(ids) <==>
      c.DeleteRestApi? && exists x :: x in a.apis && x.name == n.restApi && x.id == c.api
    {
      if c.DeleteRestApi? {
        NamedIdsMember(a.apis, n.restApi, c.api);
        if c.api in ids {
          var k :| 0 <= k < |ids| && ids[k] == c.api;
          assert RestApiDeletions(ids)[k] == c;
        }
      }
    }
  }

  /**
   * delete_user_pool removes exactly the pool it found on the first page and keeps every other
   * pool; it deletes the pool's domain first when the pool has one, then the pool.
   */
  lemma DeleteUserPoolRemovesFound(a: Account, n: Names)
    requires PoolId(a.pools, n.userPool).Some?
    ensures var pool := PoolId(a.pools, n.userPool).value;
      InfoOf(a.pools, pool).Some?
    ensures var pool := PoolId(a.pools, n.userPool).value;
      var domain := InfoOf(a.pools, pool).value.domain;
      var r := DeleteUserPoolSpec(a, n);
      && (forall x :: x in r.pools <==> x in a.pools && x.id != pool)
      && |r.pools| < |a.pools|
      && r.calls == a.calls
           + (if domain.Some? then [Call.DeleteUserPoolDomain(pool, domain.value)] else [])
           + [Call.DeleteUserPool(pool)]
  {
    var pool := PoolId(a.pools, n.userPool).value;
    InfoOfPresent(a.pools, pool);
    var info := InfoOf(a.pools, pool).value;
    if info.domain.Some? {
      var cleared := DomainDeleted(a, pool, info.domain.value);
      assert DeleteUserPoolSpec(a, n) == PoolDeleted(cleared, pool);
      RetagKeepsNames(a.pools, pool, info.(domain := None), n.userPool, a.nextId);
      InfoOfPresent(cleared.pools, pool);
      forall x: Named<PoolInfo> | x.id != pool ensures x in cleared.pools <==> x in a.pools {
        RetagKeepsOthers(a.pools, pool, info.(domain := None), x);
      }
      PoolRemoved(cleared, pool, a.pools);
    } else {
      assert DeleteUserPoolSpec(a, n) == PoolDeleted(a, pool);
      PoolRemoved(a, pool, a.pools);
    }
  }

  /** Deleting a listed pool keeps exactly the pools with other ids, of a list `before` that agrees on them. */
  lemma PoolRemoved(a: Account, pool: Id, before: seq<Named<PoolInfo>>)
    requires InfoOf(a.pools, pool).Some? && |a.pools| == |before|
    requires forall x: Named<PoolInfo> | x.id != pool :: x in a.pools <==> x in before
    ensures var r := PoolDeleted(a, pool);
      && (forall x :: x in r.pools <==> x in before && x.id != pool)
      && |r.pools| < |before|
      && r.calls == a.calls + [Call.DeleteUserPool(pool)]
  {
    InfoOfPresent(a.pools, pool);
    RemoveIdShortens(a.pools, pool);
    forall x ensures x in RemoveId(a.pools, pool) <==> x in before && x.id != pool {
      RemoveIdMember(a.pools, pool, x);
    }
  }

  /**
   * A build that create_build reported is found by name afterwards, so a following create_fleet
   * can use it; when no build of the name existed before, it is the uploaded one.
   */
  lemma UploadedBuildIsFound(a: Account, n: Names, env: Env)
    requires Contains(env.uploadOut, BuildIdMarker)
    ensures var r := CreateBuildSpec(a, n, env).account;
      && FirstId(r.builds, n.build).Some?
      && (FirstId(a.builds, n.build).None? ==> FirstId(r.builds, n.build) == Some(a.nextId))
      && (FirstId(a.builds, n.build).Some? ==> FirstId(r.builds, n.build) == FirstId(a.builds, n.build))
  {
    FirstNamedAppend(a.builds, Named(n.build, a.nextId, Initialized), n.build);
  }

  /** delete_fleet removes exactly the first fleet of the name, with one call; with none, nothing changes. */
  lemma DeleteFleetRemovesFirst(a: Account, n: Names)
    ensures FirstId(a.fleets, n.fleet).None? ==> DeleteFleetSpec(a, n) == a
    ensures FirstId(a.fleets, n.fleet).Some? ==>
      var fleet := FirstId(a.fleets, n.fleet).value;
      var r := DeleteFleetSpec(a, n);
      && (forall f :: f in r.fleets <==> f in a.fleets && f.id != fleet)
      && r.calls == a.calls + [Call.DeleteFleet(fleet)]
  {
    if FirstId(a.fleets, n.fleet).Some? {
      var fleet := FirstId(a.fleets, n.fleet).value;
      var r := DeleteFleetSpec(a, n);
      assert r.fleets == RemoveId(a.fleets, fleet);
      forall f ensures f in r.fleets <==> f in a.fleets && f.id != fleet {
        RemoveIdMember(a.fleets, fleet, f);
      }
    }
  }

  /**
   * A fleet that create_fleet made where none of the name existed is what a following
   * delete_fleet removes: the fleets are as before, and a lookup of the name finds nothing.
   */
  lemma CreateThenDeleteFleet(a: Account, n: Names, progress: seq<BuildStatus>)
    requires Consistent(a) && FirstId(a.fleets, n.fleet).None?
    requires CreateFleetSpec(a, n, progress).outcome == Completed
    ensures var r := DeleteFleetSpec(CreateFleetSpec(a, n, progress).account, n);
      r.fleets == a.fleets && FirstId(r.fleets, n.fleet).None?
  {
    var made := Named(n.fleet, a.nextId, FirstId(a.builds, n.build).value);
    FirstNamedAppend(a.fleets, made, n.fleet);
    RemoveIdAppended(a.fleets, made);
  }

  /**
   * create_fleet has no guard on the fleet's own name: with a READY build, two runs make two
   * fleets of the same name.
   */
  lemma CreateFleetTwiceDuplicates(a: Account, n: Names, progress: seq<BuildStatus>)
    requires FirstId(a.builds, n.build).Some?
    requires InfoOf(a.builds, FirstId(a.builds, n.build).value) == Some(Ready)
    ensures var build := FirstId(a.builds, n.build).value;
      var once := CreateFleetSpec(a, n, progress);
      var twice := CreateFleetSpec(once.account, n, progress);
      && once.outcome == Completed && twice.outcome == Completed
      && twice.account.fleets == a.fleets + [Named(n.fleet, a.nextId, build), Named(n.fleet, a.nextId + 1, build)]
  {
    var once := CreateFleetSpec(a, n, progress);
    assert once.account.builds == a.builds;
  }

  /**
   * delete_lambdas, for two distinct function names, removes exactly the first function of each
   * name that exists, with one delete_function call each, start-session first; every other
   * function stays.
   */
  lemma DeleteLambdasRemovesNamed(a: Account, n: Names)
    requires Consistent(a)
    ensures n.lambdaStartSession != n.lambdaLogin ==>
      var session := FirstId(a.functions, n.lambdaStartSession);
      var login := FirstId(a.functions, n.lambdaLogin);
      var r := DeleteLambdasSpec(a, n);
      && (forall f :: f in r.functions <==> f in a.functions && Some(f.id) != session && Some(f.id) != login)
      && r.calls == a.calls
           + (if session.Some? then [Call.DeleteFunction(session.value)] else [])
           + (if login.Some? then [Call.DeleteFunction(login.value)] else [])
  {
    if n.lambdaStartSession != n.lambdaLogin {
      var session := FirstId(a.functions, n.lambdaStartSession);
      var login := FirstId(a.functions, n.lambdaLogin);
      var first := if session.Some? then FunctionDeleted(a, session.value) else a;
      if session.Some? {
        FoundIdIsOwn(a.functions, n.lambdaStartSession, session.value, a.nextId);
        RemoveIdKeepsLookup(a.functions, session.value, n.lambdaLogin);
      }
      assert FirstId(first.functions, n.lambdaLogin) == login;
      var r := DeleteLambdasSpec(a, n);
      assert r == if login.Some? then FunctionDeleted(first, login.value) else first;
      forall f ensures f in r.functions <==> f in a.functions && Some(f.id) != session && Some(f.id) != login {
        if session.Some? { RemoveIdMember(a.functions, session.value, f); }
        if login.Some? { RemoveIdMember(first.functions, login.value, f); }
      }
    }
  }
}
