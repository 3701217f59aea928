# GameLift backend provisioning, modelled in Dafny

`tools/aws_backend.py` provisions the server side of an Unreal/GameLift sample:

- a GameLift build and a fleet that runs it;
- a Cognito user pool with a login client and a hosted-UI domain;
- two Lambda functions with their IAM roles;
- an API Gateway REST API that fronts the two lambdas behind a Cognito authorizer.

The script reads a configuration of resource names, whose defaults carry a `[prefix]` placeholder. It then runs a command list such as `create all` or `delete fleet lambdas`. `create_user_pool` and `create_rest_api` look their resource up by name first and skip the creation when it exists, and `create_lambda_role` reuses a role of the same name. `create_build` and `create_fleet` have no such guard: they create again on every run. `create_lambdas` reuses its two roles but creates its functions again, so a second run raises `ResourceConflictException` on the function name already taken (`Effects.LambdaCreated`, `Effects.CreateLambdasStops`). Each delete handler looks its resource up by name and removes it if it is found. `delete_build` and `delete_rest_api` repeat this until no record of the name is left.

This project models that orchestration. The AWS account is a value holding one list of named records per service. The boto3 client calls are methods that change that value.

- `Cloud` defines the account.
  - `Cloud.Account` is the account as a value, together with the list of client calls made so far.
  - `Cloud.Provider` is the class the handlers mutate. Each of its methods is one client call.
  - Each Provider method is specified by a function on `Account`, for example `Cloud.FleetCreated`.
- `Locator` holds the `lookup_*` helpers. Each is a scanning loop proved equal to "first record of that name". The Cognito lookups see only the first page of 60.
- `Effects` states what each handler does to the account, as a function that returns the new account and an outcome. The outcome is Completed, Raised (a Python exception ends the run) or StillPolling. The lemmas about the handlers live here.
- `Provisioners` holds the handlers as methods over `Provider`: the readiness poll, the delete-until-gone loops, get-or-create role, and the guarded creates. Each is proved equal to its `Effects` function.
- `Settings` holds the configuration dictionary and the `[prefix]` templating loop of `parse_args`. The command list is a `TokenList` object, because the dispatcher pops it in place.
- `Orchestrator` holds `process_build_config`, `process_create_commands` and `process_delete_commands`. They are a verb pop, the `all` expansion and the token loops, proved against `RunCreate`, `RunDelete` and `ProcessSpec`.
- `Text` is the `str.replace` and `re.search("Build ID: (.*)")` behaviour the script relies on.
- `Records` holds the generic facts about lists of named records.
- `Wrappers` defines `Option`.

Inputs from outside the account are parameters of type `Effects.Env`:

- the upload tool's stdout and stderr. When stdout carries a build id, the build the tool registered is added to the account;
- the build status after each one-second sleep;
- the text of the two lambda handler files.

Ids are natural numbers taken from a counter in the account. `Records.IdText` renders an id where the script splices one into text.

Where the code differs from what its design evidently intends, the model follows the code:

- `create_fleet` logs `create_fleet_resp` even when no build was found. That variable is then unbound, so the run ends with an exception (`FleetResponseUnbound`).
- `create_lambdas` concatenates a missing fleet id into a log string, and a missing app client id into the replacement text it passes to `create_lambda`. Either way the run ends with an exception (`FleetIdMissing`, `ClientIdMissing`).
- `create_fleet` never looks up the fleet's own name, so a second `create fleet` makes a second fleet of the same name (`Effects.CreateFleetTwiceDuplicates`). The design intends a repeated create to be a no-op for fleets as well.
- `lookup_cognito_arn` describes the user pool even when no pool was found (`PoolIdMissing`).
- Nothing retries.
- Only the first 60 user pools and the first 60 clients are searched.
- `create_rest_api` makes the API before anything that can fail. A failed run therefore leaves the API in place, and every later `create rest_api` skips it.
- `delete lambdas` leaves both IAM roles in place.
- With `all`, whatever follows `all` on the command line is ignored and left in the configuration's list. Without `all`, the handlers pop the configuration's own list.

## Model

| member | source | states |
|---|---|---|
| Text.Find | tools/aws_backend.py:124-126 | the search result is the leftmost occurrence of the pattern, and it is absent exactly when the text does not contain the pattern |
| Text.FindIsLeftmost | tools/aws_backend.py:124-126 | an occurrence with none before it is what the search returns |
| Text.FindAfterLines | tools/aws_backend.py:124-126 | a pattern absent from the lines before it is first found where the next line starts with it |
| Text.TakeLineBeforeBreak | tools/aws_backend.py:124-128 | `.*` takes a whole line that ends in a line break, whatever follows the break |
| Text.MarkedLine | tools/aws_backend.py:124-128 | when the first line holding the pattern starts with it, the search finds it there and the group is the rest of that line |
| Text.TakeLine | tools/aws_backend.py:124-126 | `.*` takes a prefix of the text that has no newline and stops at the end or at a newline |
| Text.Split | tools/aws_backend.py:909 | splitting on a separator yields at least one piece |
| Text.SplitPiecesAreFree | tools/aws_backend.py:909 | no piece of a split contains the separator |
| Text.SplitJoinRoundTrip | tools/aws_backend.py:909 | joining the pieces with the separator gives back the text |
| Text.Replace | tools/aws_backend.py:199-200 | `str.replace`: the text before the first occurrence, then the replacement, lead the result; its full meaning is stated by `Text.ReplaceIsJoinOfSplit`, `Text.ReplaceAbsent` and `Text.ReplaceLeavesNoPattern` |
| Text.ReplaceIsJoinOfSplit | tools/aws_backend.py:909 | `str.replace` replaces every non-overlapping occurrence: it equals split-then-join with the replacement |
| Text.ReplaceAbsent | tools/aws_backend.py:200-201 | replacing a pattern the text lacks changes nothing |
| Text.ReplaceInserts | tools/aws_backend.py:200-201 | when the pattern occurs, the result contains the replacement |
| Text.ReplaceLeading | tools/aws_backend.py:909 | a leading occurrence becomes a leading replacement, and the rest is replaced alone |
| Text.BeforeFirstIsFree | tools/aws_backend.py:200-201 | the text before the first occurrence holds no occurrence of the pattern |
| Text.NotAcrossSeam | tools/aws_backend.py:200-201 | no occurrence can start anywhere in `x + rep + y` when `x` and `y` hold none and the seams around `rep` cannot be straddled |
| Text.ReplaceLeavesNoPattern | tools/aws_backend.py:200-201 | under those seam conditions, no occurrence of the pattern is left after `str.replace` |
| Records.FirstId | tools/aws_backend.py:307-373 | what every `lookup_*` returns: the id of the first record of the name, as `Records.FirstNamedIsFirstMatch` and `Records.FirstMatchIsFirstNamed` state |
| Records.FirstNamedIsFirstMatch | tools/aws_backend.py:307-313 | the name lookup finds nothing exactly when no record has the name, and otherwise finds the record at the first index with it |
| Records.FirstMatchIsFirstNamed | tools/aws_backend.py:307-313 | the record at the first index with the name is the one the lookup returns |
| Records.FirstNamedAppend | tools/aws_backend.py:588-593 | appending a record leaves an existing lookup unchanged and makes a missing one find the new record |
| Records.Page | tools/aws_backend.py:327 | a listing with `MaxResults=60` is a prefix of the records, at most 60 long, and a list of at most 60 comes back whole |
| Records.PageMissesLaterRecords | tools/aws_backend.py:326-332 | a name that occurs only past the sixtieth record is not found on the first page, though it exists |
| Records.WithoutNameMembers | tools/aws_backend.py:691-696 | dropping a name keeps exactly the records with other names |
| Records.NoneLeft | tools/aws_backend.py:691-696 | after dropping a name, no record with it is left |
| Records.NamedIdsCount | tools/aws_backend.py:691-696 | the records dropped plus the records kept are all the records |
| Records.NamedIdsMember | tools/aws_backend.py:691-696 | an id is listed for deletion exactly when a record of the name carries it |
| Records.NoneNamed | tools/aws_backend.py:691-696 | when no record has the name, dropping it changes nothing and finds no ids |
| Records.RemoveIdKeeps | tools/aws_backend.py:695 | deleting by id keeps exactly the records with other ids, shortens a list that held the id, and keeps ids distinct |
| Records.RemoveIdMember | tools/aws_backend.py:704 | a record survives a delete by id exactly when it was listed and has another id |
| Records.RemoveIdAppended | tools/aws_backend.py:699-706 | deleting the id of a record appended behind records with other ids gives back the list before the append |
| Records.RemoveIdKeepsLookup | tools/aws_backend.py:723-729 | deleting an id that no record of a name carries leaves the lookup of that name unchanged |
| Records.FoundIdIsOwn | tools/aws_backend.py:723-726 | with distinct ids, the id a lookup returns belongs to no record of another name |
| Records.RetagKeepsOthers | tools/aws_backend.py:714-718 | updating one record's details leaves every record with another id where it was |
| Records.WithoutNameKeeps | tools/aws_backend.py:691-696 | dropping a name keeps ids distinct and below the counter |
| Records.DeleteFirstMatch | tools/aws_backend.py:692-696 | deleting the id the lookup returned removes the head of the same-named ids and leaves the other-named records as they were |
| Records.RetagKeepsNames | tools/aws_backend.py:142-146 | updating a record's details keeps every name, id and name lookup |
| Records.RetagKeepsLookups | tools/aws_backend.py:183-186 | updating a record's details keeps every name, id and the lookup of every name |
| Records.RetagFirstNamed | tools/aws_backend.py:183-186 | updating the first record of a name makes the lookup return it with the new details |
| Records.RetagKeepsOthersAll | tools/aws_backend.py:183-186 | updating one id leaves every record with another id where it was |
| Records.AppendKeepsLookups | tools/aws_backend.py:177-179 | appending a record keeps every lookup that already found one |
| Records.InfoOf | tools/aws_backend.py:140-141 | what `describe_build` and `describe_user_pool` report for an id: details exactly when a record has it (`Records.InfoOfPresent`), that record's own details (`Records.InfoOfMember`) |
| Records.InfoOfPresent | tools/aws_backend.py:141 | describing an id finds details exactly when a record has that id |
| Records.RetagPresent | tools/aws_backend.py:649-651 | after an update, describing the id gives the new details |
| Records.RetagAppended | tools/aws_backend.py:595-661 | updating a record that was just appended updates only that record |
| Records.RetagTwice | tools/aws_backend.py:649-661 | a second update of the same record supersedes the first |
| Records.InfoOfMember | tools/aws_backend.py:711-712 | in a list with distinct ids, describing a record's id gives that record's details |
| Records.AppendFresh | tools/aws_backend.py:148 | appending a record with the counter's id keeps ids distinct and below the advanced counter |
| Records.IdTextDigits | tools/aws_backend.py:285-304 | the text of an id spliced into a handler is a non-empty run of decimal digits |
| Cloud.Provider.constructor | tools/aws_backend.py:37-49 | the provider starts from a given consistent account |
| Cloud.Provider.UploadBuild | tools/aws_backend.py:122 | the upload tool appends an INITIALIZED build of the name under a new id |
| Cloud.Provider.DescribeBuild | tools/aws_backend.py:141 | returns the build's status, if the build exists, and records one describe call |
| Cloud.Provider.Settle | tools/aws_backend.py:144 | during a sleep, the provider may move the build to another status |
| Cloud.Provider.DeleteBuild | tools/aws_backend.py:695 | removes the build with that id and records the call |
| Cloud.Provider.CreateFleet | tools/aws_backend.py:148-159 | appends a fleet that runs the build under a new id and records the call |
| Cloud.Provider.DeleteFleet | tools/aws_backend.py:704 | removes the fleet with that id and records the call |
| Cloud.Provider.CreateUserPool | tools/aws_backend.py:595-623 | appends a pool with no clients and no domain under a new id |
| Cloud.Provider.CreateUserPoolClient | tools/aws_backend.py:631-646 | adds a client with a new id to an existing pool |
| Cloud.Provider.EnableEmailAutoVerify | tools/aws_backend.py:649-651 | marks an existing pool as auto-verifying e-mail |
| Cloud.Provider.CreateUserPoolDomain | tools/aws_backend.py:659-661 | gives an existing pool its domain |
| Cloud.Provider.DeleteUserPoolDomain | tools/aws_backend.py:716-717 | takes the domain off an existing pool |
| Cloud.Provider.DeleteUserPool | tools/aws_backend.py:718 | removes the pool with that id |
| Cloud.Provider.CreateRole | tools/aws_backend.py:177-179 | appends a role with the trust policy and no inline policies under a new id |
| Cloud.Provider.PutRolePolicy | tools/aws_backend.py:183-186 | sets one inline policy of an existing role |
| Cloud.Provider.CreateFunction | tools/aws_backend.py:210-218 | creates a function under a new id exactly when no function has the name; otherwise raises and changes nothing |
| Cloud.Provider.DeleteFunction | tools/aws_backend.py:726 | removes the function with that id |
| Cloud.Provider.CreateRestApi | tools/aws_backend.py:533-534 | appends a REST API under a new id |
| Cloud.Provider.CreateAuthorizer | tools/aws_backend.py:547-553 | creates a Cognito authorizer on the pool under a new id |
| Cloud.Provider.PutMethod | tools/aws_backend.py:418-423 | records a method with its authorization |
| Cloud.Provider.PutIntegration | tools/aws_backend.py:437-443 | records the lambda integration of a method |
| Cloud.Provider.CreateDeployment | tools/aws_backend.py:567-569 | records the deployment to the stage |
| Cloud.Provider.DeleteRestApi | tools/aws_backend.py:737 | removes the REST API with that id |
| Cloud.PoolCreated | tools/aws_backend.py:595 | the new pool can be described, and ids stay distinct |
| Cloud.WithPoolInfo | tools/aws_backend.py:631-661 | describing the pool afterwards gives the new details, and ids stay distinct |
| Cloud.Settled | tools/aws_backend.py:144-146 | while the script sleeps the provider changes only build statuses: every build keeps its name, id and position, and nothing else in the account changes |
| Cloud.RoleCreated | tools/aws_backend.py:177-179 | a role of the name exists afterwards, and every lookup that found a role still finds the same one |
| Cloud.RolePolicyPut | tools/aws_backend.py:183-186 | the role of the name now has the inline policy under its policy name, with its trust policy and other inline policies kept; every role keeps its name and id, every name lookup is unchanged, roles with other ids are untouched, and only the roles and one `put_role_policy` call change |
| Locator.Scan | tools/aws_backend.py:309-313 | the scanning loop returns the id of the first record with the name, or nothing |
| Locator.LookupBuildId | tools/aws_backend.py:307-313 | the first build of that name, or nothing |
| Locator.LookupFleetId | tools/aws_backend.py:316-323 | the first fleet of that name, or nothing |
| Locator.PoolId | tools/aws_backend.py:326-332 | a pool found by name is among the first 60 and has that name |
| Locator.LookupPoolId | tools/aws_backend.py:326-332 | the first pool of that name among the first 60, or nothing |
| Locator.PoolIdIsFirstOnPage | tools/aws_backend.py:326-332 | nothing is found exactly when none of the first 60 pools has the name; otherwise it is the first of them that has it |
| Locator.ClientIdIsFirstOnPage | tools/aws_backend.py:342-353 | for a found pool, nothing is found exactly when none of its first 60 clients has the name; otherwise it is the first of them that has it |
| Locator.ClientId | tools/aws_backend.py:342-353 | no pool means no client; a found client belongs to the found pool and has the name |
| Locator.LookupClientId | tools/aws_backend.py:342-353 | the first client of that name among the first 60 clients of the found pool, or nothing |
| Locator.LookupFunctionArn | tools/aws_backend.py:356-363 | the function of that name, or nothing |
| Locator.LookupRestApiId | tools/aws_backend.py:366-373 | the first REST API of that name, or nothing |
| Settings.TokenList.constructor | tools/aws_backend.py:781-785 | a command list holding the given tokens |
| Settings.TokenList.PopFront | tools/aws_backend.py:744 | `pop(0)` returns the first token and removes it from the list |
| Settings.Templated | tools/aws_backend.py:907-909 | a string is split on `[prefix]` into placeholder-free pieces that join back to it, and the result joins the same pieces with the prefix; a list value is left alone |
| Settings.Prefixed | tools/aws_backend.py:905-910 | the same keys, each value templated with the configured prefix |
| Settings.BuildConfig.constructor | tools/aws_backend.py:900 | the configuration holds the parsed arguments |
| Settings.BuildConfig.ApplyPrefix | tools/aws_backend.py:905-910 | the loop over the entries leaves exactly the templated dictionary |
| Settings.NoBracketNoPlaceholder | tools/aws_backend.py:909 | text without `[` does not contain the placeholder |
| Settings.TemplatedDefault | tools/aws_backend.py:812 | a default of the form `[prefix]-rest` becomes `<prefix>-rest` |
| Settings.PrefixedConfigured | tools/aws_backend.py:905-910 | templating keeps every resource name a string and the command list a list |
| Effects.ExtractBuildId | tools/aws_backend.py:124-129 | the build id is absent exactly when the output lacks `Build ID: `, and never spans a newline |
| Effects.UploadReported | tools/aws_backend.py:124-132 | the upload is reported with an id exactly when the marker occurs; otherwise the tool's stderr is reported |
| Effects.ExtractBuildIdRoundTrip | tools/aws_backend.py:124-129 | for output whose first marker line reads `Build ID: <id>`, the extracted id is `<id>` |
| Effects.CreateBuildSpec | tools/aws_backend.py:109-132 | always completes; when the output carries `Build ID: `, exactly one INITIALIZED build of the name is appended, and otherwise the account is unchanged |
| Effects.UploadedBuildIsFound | tools/aws_backend.py:122-137 | a reported upload is found by name afterwards: the new build if none of the name existed, the earlier first one otherwise |
| Effects.PollFrom | tools/aws_backend.py:141-146 | the poll either sees READY or runs out of progress; it changes only the builds and the call log, and every build keeps its name, id and position (only statuses change) |
| Effects.SettledReports | tools/aws_backend.py:144-146 | after one sleep, the build is still there and the next report is the provider's next status |
| Effects.PollWaits | tools/aws_backend.py:141-146 | a poll whose first READY report comes after `k` other reports makes exactly `k + 1` describe calls and completes |
| Effects.PollGivesUp | tools/aws_backend.py:141-146 | a poll that never sees READY describes once per report and is still waiting |
| Effects.CreateFleetSpec | tools/aws_backend.py:135-163 | a missing build raises; a completed run appends exactly one fleet running the first build of the name; otherwise fleets are unchanged; pools, roles, functions and APIs never change, and builds change only in status |
| Effects.CreateFleetWaits | tools/aws_backend.py:135-159 | `k` non-READY reports then READY: `k + 1` describe calls, then one create_fleet call, and one new fleet |
| Effects.CreateFleetKeepsWaiting | tools/aws_backend.py:141-146 | a build that never reports READY yields describe calls only, and no fleet |
| Effects.CreateFleetTwiceDuplicates | tools/aws_backend.py:135-159 | with a READY build, two runs of create_fleet both complete and append two fleets of the same name |
| Effects.CreateThenDeleteFleet | tools/aws_backend.py:699-706 | a fleet created where none of the name existed is removed by the next delete_fleet: the fleets are as before and the name is not found |
| Effects.CreateUserPoolSpec | tools/aws_backend.py:588-661 | always completes, and changes the account exactly when no pool of the name is on the first page; builds, fleets, roles, functions and APIs never change |
| Effects.CreateUserPoolCreates | tools/aws_backend.py:595-661 | the new pool carries the login client, e-mail auto-verification and the domain, made in four calls in source order |
| Effects.CreateUserPoolIdempotent | tools/aws_backend.py:588-593 | while all pools fit on one page, a second create_user_pool changes nothing |
| Effects.CreateUserPoolPastFirstPage | tools/aws_backend.py:326-332 | a pool of the name past the first sixty is missed, and a second pool of that name is made |
| Effects.LambdaRoleEnsured | tools/aws_backend.py:167-188 | the returned arn is the role of that name: the existing one if any, otherwise a new one; every role found before is still found; only roles, calls and the counter change |
| Effects.LambdaRoleGetOrCreate | tools/aws_backend.py:172-186 | create_role is issued only when the role is missing, and the inline policy is always put |
| Effects.Substituted | tools/aws_backend.py:200-201 | when the placeholder occurs, the code contains the value; otherwise the code is the source unchanged |
| Effects.LambdaCreated | tools/aws_backend.py:191-219 | completes exactly when the name is free, appending one function with the substituted code; otherwise raises and changes nothing |
| Effects.CreateLambdasSpec | tools/aws_backend.py:222-304 | never waits, and keeps the account consistent |
| Effects.CreateLambdasInjectsIds | tools/aws_backend.py:285-304 | a completed run made exactly two functions: the start-session one carrying the fleet id and the login one carrying the app client id, with no placeholder left in either |
| Effects.CreateLambdasKeeps | tools/aws_backend.py:273-304 | a completed run keeps the functions that were there, the start-session function runs as the `gl_session_lambda_role` role and the login function as the `gl_cognito_lambda_role` role, and nothing but roles, functions, calls and the counter changes |
| Effects.CreateLambdasStops | tools/aws_backend.py:273-299 | a run that stops has both roles; a missing fleet raises with no function created; a taken start-session name raises with the functions unchanged; a missing app client raises after creating only the start-session function |
| Effects.FleetIdFullyReplaced | tools/aws_backend.py:286-290 | no `GAMELIFT_FLEET_ID = ""` is left in the start-session handler once the fleet id is spliced in |
| Effects.ClientIdFullyReplaced | tools/aws_backend.py:296-304 | no `USER_POOL_APP_CLIENT_ID = ''` is left in the login handler once the client id is spliced in |
| Effects.MethodAuthFor | tools/aws_backend.py:411-415 | Cognito user pools authorization exactly when an authorizer id is given, with that id |
| Effects.ResourceWired | tools/aws_backend.py:411-448 | `put_method` is always called, with Cognito user-pool authorization exactly when an authorizer is given; `put_integration` follows and the step completes exactly when the lambda exists, otherwise it raises after the method was put; only the call log changes |
| Effects.CreateRestApiSpec | tools/aws_backend.py:524-572 | never waits; the account is untouched exactly when an API of the name exists; otherwise exactly one API is appended; builds, fleets, pools, roles and functions never change |
| Effects.CreateRestApiIdempotent | tools/aws_backend.py:524-539 | a second create_rest_api changes nothing, however the first one ended |
| Effects.CreateRestApiWiring | tools/aws_backend.py:524-572 | a completed run found the pool and both lambdas, and made the seven calls in source order, with the authorizer on the GET path only |
| Effects.DeleteBuildSpec | tools/aws_backend.py:691-696 | no build of the name is left, and only builds and calls change |
| Effects.DeleteBuildRemovesAll | tools/aws_backend.py:691-696 | exactly the builds of other names remain; the calls before are kept, and the new calls, one per build removed, are exactly `delete_build` calls on the ids of the builds of the name |
| Effects.DeleteFleetSpec | tools/aws_backend.py:699-706 | only fleets and calls change |
| Effects.DeleteFleetRemovesFirst | tools/aws_backend.py:699-706 | exactly the first fleet of the name is removed, with one delete_fleet call; every other fleet stays; with no such fleet nothing changes |
| Effects.DeleteUserPoolSpec | tools/aws_backend.py:709-718 | a pool missing from the first page changes nothing; otherwise only pools and calls change |
| Effects.DeleteUserPoolRemovesFound | tools/aws_backend.py:709-718 | exactly the pool found on the first page is removed and every other pool stays; its domain is deleted first when it has one, then the pool |
| Effects.PoolRemoved | tools/aws_backend.py:718 | deleting a listed pool keeps exactly the pools with other ids, and records one delete_user_pool call |
| Effects.DeleteLambdasSpec | tools/aws_backend.py:721-730 | only functions and calls change, so roles stay |
| Effects.DeleteLambdasRemovesNamed | tools/aws_backend.py:721-730 | for distinct names, exactly the first function of each name that exists is removed, start-session first, with one delete_function call each; every other function stays |
| Effects.DeleteRestApiSpec | tools/aws_backend.py:733-738 | no REST API of the name is left, and only APIs and calls change |
| Effects.DeleteRestApiRemovesAll | tools/aws_backend.py:733-738 | exactly the APIs of other names remain; the calls before are kept, and the new calls, one per API removed, are exactly `delete_rest_api` calls on the ids of the APIs of the name |
| Provisioners.CreateFleet | tools/aws_backend.py:135-163 | the lookup, poll loop and fleet creation do what `Effects.CreateFleetSpec` says |
| Provisioners.CreateBuild | tools/aws_backend.py:109-132 | the upload and the parse of its output do what `Effects.CreateBuildSpec` says |
| Provisioners.CreateUserPool | tools/aws_backend.py:588-661 | does what `Effects.CreateUserPoolSpec` says |
| Provisioners.CreateLambdaRole | tools/aws_backend.py:167-188 | the get-or-create of the role does what `Effects.LambdaRoleEnsured` says |
| Provisioners.CreateLambda | tools/aws_backend.py:191-219 | does what `Effects.LambdaCreated` says |
| Provisioners.CreateLambdas | tools/aws_backend.py:222-304 | does what `Effects.CreateLambdasSpec` says |
| Provisioners.CreateRestResource | tools/aws_backend.py:486-523 | looks up the lambda and does what `Effects.ResourceWired` says |
| Provisioners.CreateRestApi | tools/aws_backend.py:524-572 | does what `Effects.CreateRestApiSpec` says |
| Provisioners.DeleteBuild | tools/aws_backend.py:691-696 | the delete-until-gone loop does what `Effects.DeleteBuildSpec` says |
| Provisioners.DeleteFleet | tools/aws_backend.py:699-706 | does what `Effects.DeleteFleetSpec` says |
| Provisioners.DeleteUserPool | tools/aws_backend.py:709-718 | does what `Effects.DeleteUserPoolSpec` says |
| Provisioners.DeleteLambdas | tools/aws_backend.py:721-730 | does what `Effects.DeleteLambdasSpec` says |
| Provisioners.DeleteRestApi | tools/aws_backend.py:733-738 | the delete-until-gone loop does what `Effects.DeleteRestApiSpec` says |
| Orchestrator.CreateStage | tools/aws_backend.py:744-757 | an unrecognised token changes nothing and completes |
| Orchestrator.DeleteStage | tools/aws_backend.py:763-776 | an unrecognised token changes nothing; only `build` touches builds and leaves none of the name; only `rest_api` touches APIs and leaves none of the name |
| Orchestrator.RunCreate | tools/aws_backend.py:741-757 | a completed run has popped every token; an exception leaves a proper suffix of the tokens in the list |
| Orchestrator.RunDelete | tools/aws_backend.py:760-776 | keeps the account consistent |
| Orchestrator.RunCreateAppend | tools/aws_backend.py:741-757 | running `t1 + t2` is running `t1`, then `t2` if `t1` completed; otherwise `t2` stays in the list |
| Orchestrator.RunCreateCons | tools/aws_backend.py:743-745 | the front token's handler runs first, and the rest runs only if it completed |
| Orchestrator.Known | tools/aws_backend.py:746-757 | keeps exactly the recognised tokens |
| Orchestrator.RunCreateIgnoresUnknown | tools/aws_backend.py:756-757 | unrecognised tokens do not change the account or the outcome |
| Orchestrator.RunDeleteAppend | tools/aws_backend.py:760-776 | delete runs compose front to back |
| Orchestrator.RunDeleteIgnoresUnknown | tools/aws_backend.py:775-776 | unrecognised tokens do not change the account |
| Orchestrator.RunDeleteKeeps | tools/aws_backend.py:763-776 | without a `build` token builds stay, and without a `rest_api` token APIs stay |
| Orchestrator.DeleteAllClears | tools/aws_backend.py:787-799 | `delete all` leaves no build and no REST API of the configured names |
| Orchestrator.ProcessSpec | tools/aws_backend.py:779-799 | an empty command list does nothing; a verb other than create or delete leaves the account unchanged |
| Orchestrator.ProcessAllExpands | tools/aws_backend.py:787-793 | `<verb> all ...` runs the five stages in order, and whatever follows `all` is ignored |
| Orchestrator.ProcessDrainsOwnList | tools/aws_backend.py:784-799 | a completed create or delete without `all` empties the configuration's own list |
| Orchestrator.CreateStageRun | tools/aws_backend.py:744-757 | one token's handler does what `CreateStage` says |
| Orchestrator.DeleteStageRun | tools/aws_backend.py:763-776 | one token's handler does what `DeleteStage` says |
| Orchestrator.ProcessCreateCommands | tools/aws_backend.py:741-757 | the pop-and-dispatch loop ends with the account, the outcome and the list `RunCreate` gives |
| Orchestrator.ProcessDeleteCommands | tools/aws_backend.py:760-776 | the loop ends with the account `RunDelete` gives and an empty list |
| Orchestrator.ProcessBuildConfig | tools/aws_backend.py:779-799 | running the configuration's command list with the configured names does what `ProcessSpec` says, and leaves in the configuration's list the tokens `ProcessSpec` says |
| Orchestrator.ProcessCommandList | tools/aws_backend.py:780-799 | the verb pop, the `all` expansion and the dispatch on a command list do what `ProcessSpec` says, including which tokens stay in that list |
| Orchestrator.Backend | tools/aws_backend.py:902-922 | templating first, then processing with the templated names |

## Left out

- The boto3 transport, credentials, regions and the `global_setup` client construction (tools/aws_backend.py:37-49): the clients are the `Provider` object.
- The IAM policy inspection helpers `get_groups_by_username` through `check_user_policies` (tools/aws_backend.py:52-106). Nothing in the command flow calls them.
- The upload subprocess and its command line in `create_build`: its output is a parameter. The build the tool registers is added to the account exactly when that output carries a build id; a tool that registers a build but prints no id is not modelled.
- Logging, `argparse` option parsing and the configuration's other options: the configuration is given as a dictionary of names and the command list.
- Reading the lambda handler files and zipping them: the file text is a parameter, and the function records its substituted text.
- The 32 test users `create_user_pool` makes (tools/aws_backend.py:672-688), the password policy, and the client's OAuth settings.
- The REST resource creation under the root, the lambda invoke permission, and the integration and method responses in `create_rest_resource`. Only the method and the integration are modelled. The `sts` account-id lookup and the printed invoke URLs are also left out.
- Policy documents are the three named documents, not JSON.
- Ids are natural numbers, not AWS id or ARN strings. An absent id in a string concatenation is modelled by the exception that it raises.
- Paging of the GameLift, Lambda and API Gateway listings: those listings return every record. Only the two Cognito listings are cut at 60, as `MaxResults=60` demands.
- `delete_fleet`'s `ClientError` branch: the provider in this model never refuses a delete, so the logged-and-ignored error is not reached.
- Effects.ResourceWired: an integration URI naming a missing lambda is assumed to make `put_integration` fail. The provider's validation of that URI is not part of this model.
- Effects.CreateLambdasSpec: a completed run is described by `Effects.CreateLambdasInjectsIds` and `Effects.CreateLambdasKeeps`, and a run that stops by `Effects.CreateLambdasStops`. The function's own contract states only that it never waits and that the account stays consistent.
- Effects.CreateFleetSpec: the poll in `create_fleet` is unbounded. The model follows a given finite sequence of provider statuses and reports StillPolling when that sequence runs out before READY.
- Orchestrator.RunDelete: its contract states only consistency. What a delete run does is stated by `DeleteStage`, `RunDeleteAppend`, `RunDeleteKeeps` and `DeleteAllClears`.
- Effects.DeleteLambdasRemovesNamed: states the case where the two function names differ, as the configuration's defaults do. When they are equal, the second lookup finds the next function of that name. AWS keeps function names unique, and `Cloud.Provider.CreateFunction` refuses a taken name, but `Cloud.Consistent` does not carry uniqueness of names as an invariant. So the lemma does not describe that case, where `get_function` would find nothing.
- Effects.DeleteFleetSpec: its own contract is a frame. What it removes is stated by `Effects.DeleteFleetRemovesFirst` and `Effects.CreateThenDeleteFleet`.
- Effects.DeleteLambdasSpec: its own contract is a frame. What it removes is stated by `Effects.DeleteLambdasRemovesNamed`.
- Concurrency with other users of the same account, and provider-side eventual consistency.
