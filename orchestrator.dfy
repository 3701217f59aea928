/**
 * The command dispatcher of the backend: `process_build_config` pops the verb, expands
 * `all` into the fixed stage order, and hands the rest to `process_create_commands` or
 * `process_delete_commands`, which pop and dispatch one token at a time. The module-level
 * entry point applies the `[prefix]` templating first.
 */
module Orchestrator {
  import opened Wrappers
  import opened Records
  import opened Cloud
  import opened Settings
  import opened Effects
  import Provisioners

  const BuildStage: string := "build"
  const FleetStage: string := "fleet"
  const UserPoolStage: string := "user_pool"
  const LambdasStage: string := "lambdas"
  const RestApiStage: string := "rest_api"

  /** What `all` stands for, in this order. */
  const AllStages: seq<string> := [BuildStage, FleetStage, UserPoolStage, LambdasStage, RestApiStage]

  /** The account after a run of handlers, how the run ended, and the tokens still in the list. */
  datatype Run = Run(account: Account, outcome: Outcome, rest: seq<string>)

  /** The handler `process_create_commands` runs for one token; any other token is only logged. */
  function CreateStage(a: Account, token: string, n: Names, env: Env): (r: Step)
    ensures token !in AllStages ==> r == Step(a, Completed)
    ensures Consistent(a) ==> Consistent(r.account)
  {
    if token == BuildStage then CreateBuildSpec(a, n, env)
    else if token == FleetStage then CreateFleetSpec(a, n, env.buildProgress)
    else if token == UserPoolStage then CreateUserPoolSpec(a, n)
    else if token == LambdasStage then CreateLambdasSpec(a, n, env)
    else if token == RestApiStage then CreateRestApiSpec(a, n)
    else Step(a, Completed)
  }

  /** The handler `process_delete_commands` runs for one token; any other token is only logged. */
  function DeleteStage(a: Account, token: string, n: Names): (r: Account)
    ensures token !in AllStages ==> r == a
    ensures token == BuildStage ==> FirstNamed(r.builds, n.build).None?
    ensures token != BuildStage ==> r.builds == a.builds
    ensures token == RestApiStage ==> FirstNamed(r.apis, n.restApi).None?
    ensures token != RestApiStage ==> r.apis == a.apis
    ensures Consistent(a) ==> Consistent(r)
  {
    if token == BuildStage then DeleteBuildSpec(a, n)
    else if token == FleetStage then DeleteFleetSpec(a, n)
    else if token == UserPoolStage then DeleteUserPoolSpec(a, n)
    else if token == LambdasStage then DeleteLambdasSpec(a, n)
    else if token == RestApiStage then DeleteRestApiSpec(a, n)
    else a
  }

  /**
   * process_create_commands: pop and dispatch tokens front to back. An exception ends the
   * run with the tokens after the failing one still in the list.
   */
  function RunCreate(a: Account, tokens: seq<string>, n: Names, env: Env): (r: Run)
    ensures r.outcome == Completed ==> r.rest == []
    ensures |r.rest| < |tokens| || r.rest == tokens == []
    ensures r.rest == tokens[|tokens| - |r.rest|..]
    ensures Consistent(a) ==> Consistent(r.account)
    decreases |tokens|
  {
    if tokens == [] then Run(a, Completed, [])
    else
      var s := CreateStage(a, tokens[0], n, env);
      if s.outcome != Completed then Run(s.account, s.outcome, tokens[1..])
      else RunCreate(s.account, tokens[1..], n, env)
  }

  /** process_delete_commands: every token is popped and dispatched, front to back. */
  function RunDelete(a: Account, tokens: seq<string>, n: Names): (r: Account)
    ensures Consistent(a) ==> Consistent(r)
    decreases |tokens|
  {
    if tokens == [] then a
    else RunDelete(DeleteStage(a, tokens[0], n), tokens[1..], n)
  }

  /** What process_build_config does: the run, and the tokens left in the configuration's own list. */
  datatype Processed = Processed(run: Run, leftInConfig: seq<string>)

  function ProcessSpec(a: Account, tokens: seq<string>, n: Names, env: Env): (r: Processed)
    ensures tokens == [] ==> r == Processed(Run(a, Completed, []), [])
    ensures tokens != [] && tokens[0] != "create" && tokens[0] != "delete" ==> r.run.account == a
  {
    if tokens == [] then Processed(Run(a, Completed, []), [])
    else
      var verb := tokens[0];
      var rest := tokens[1..];
      var expanded := |rest| > 0 && rest[0] == "all";
      var sub := if expanded then AllStages else rest;
      var run :=
        if verb == "create" then RunCreate(a, sub, n, env)
        else if verb == "delete" then Run(RunDelete(a, sub, n), Completed, [])
        else Run(a, Completed, sub);
      // Without `all` the handlers pop the configuration's own list; with it, a new list.
      Processed(run, if expanded then rest else run.rest)
  }

  // Properties of the dispatcher.

  /** Runs compose front to back: the second batch of tokens starts where the first ended, unless the first raised. */
  lemma {:induction false} RunCreateAppend(a: Account, first: seq<string>, second: seq<string>, n: Names, env: Env)
    ensures var r := RunCreate(a, first, n, env);
      RunCreate(a, first + second, n, env) ==
        if r.outcome == Completed then RunCreate(r.account, second, n, env)
        else Run(r.account, r.outcome, r.rest + second)
    decreases |first|
  {
    if first == [] {
      assert first + second == second;
    } else {
      assert (first + second)[0] == first[0];
      assert (first + second)[1..] == first[1..] + second;
      var s := CreateStage(a, first[0], n, env);
      if s.outcome == Completed {
        RunCreateAppend(s.account, first[1..], second, n, env);
      }
    }
  }

  /** The tokens process_create_commands acts on. */
  function Known(tokens: seq<string>): (r: seq<string>)
    ensures |r| <= |tokens|
    ensures forall t :: t in r <==> t in tokens && t in AllStages
  {
    if tokens == [] then []
    else (if tokens[0] in AllStages then [tokens[0]] else []) + Known(tokens[1..])
  }

  /** Unrecognised tokens are skipped: the account and the outcome are those of the recognised tokens alone. */
  lemma {:induction false} RunCreateIgnoresUnknown(a: Account, tokens: seq<string>, n: Names, env: Env)
    ensures RunCreate(a, tokens, n, env).account == RunCreate(a, Known(tokens), n, env).account
    ensures RunCreate(a, tokens, n, env).outcome == RunCreate(a, Known(tokens), n, env).outcome
    decreases |tokens|
  {
    if tokens != [] {
      var known := Known(tokens[1..]);
      var s := CreateStage(a, tokens[0], n, env);
      if tokens[0] in AllStages {
        assert Known(tokens) == [tokens[0]] + known;
        RunCreateCons(a, tokens[0], known, n, env);
        if s.outcome == Completed {
          RunCreateIgnoresUnknown(s.account, tokens[1..], n, env);
        }
      } else {
        assert Known(tokens) == known;
        RunCreateIgnoresUnknown(a, tokens[1..], n, env);
      }
    }
  }

  /** One token in front: its handler runs first, and the rest only if it completed. */
  lemma RunCreateCons(a: Account, token: string, tokens: seq<string>, n: Names, env: Env)
    ensures var s := CreateStage(a, token, n, env);
      RunCreate(a, [token] + tokens, n, env) ==
        if s.outcome == Completed then RunCreate(s.account, tokens, n, env) else Run(s.account, s.outcome, tokens)
  {
    assert ([token] + tokens)[1..] == tokens;
  }

  /** Delete runs compose front to back. */
  lemma {:induction false} RunDeleteAppend(a: Account, first: seq<string>, second: seq<string>, n: Names)
    ensures RunDelete(a, first + second, n) == RunDelete(RunDelete(a, first, n), second, n)
    decreases |first|
  {
    if first == [] {
      assert first + second == second;
    } else {
      assert (first + second)[0] == first[0];
      assert (first + second)[1..] == first[1..] + second;
      RunDeleteAppend(DeleteStage(a, first[0], n), first[1..], second, n);
    }
  }

  /** Unrecognised tokens are skipped by process_delete_commands too. */
  lemma {:induction false} RunDeleteIgnoresUnknown(a: Account, tokens: seq<string>, n: Names)
    ensures RunDelete(a, tokens, n) == RunDelete(a, Known(tokens), n)
    decreases |tokens|
  {
    if tokens != [] {
      var known := Known(tokens[1..]);
      if tokens[0] in AllStages {
        assert Known(tokens) == [tokens[0]] + known;
        assert ([tokens[0]] + known)[1..] == known;
        RunDeleteIgnoresUnknown(DeleteStage(a, tokens[0], n), tokens[1..], n);
      } else {
        assert Known(tokens) == known;
        assert RunDelete(a, tokens, n) == RunDelete(a, tokens[1..], n);
        RunDeleteIgnoresUnknown(a, tokens[1..], n);
      }
    }
  }

  /** Only the `build` token touches builds, and only the `rest_api` token touches REST APIs. */
  lemma {:induction false} RunDeleteKeeps(a: Account, tokens: seq<string>, n: Names)
    ensures BuildStage !in tokens ==> RunDelete(a, tokens, n).builds == a.builds
    ensures RestApiStage !in tokens ==> RunDelete(a, tokens, n).apis == a.apis
    decreases |tokens|
  {
    if tokens != [] {
      assert forall t :: t in tokens[1..] ==> t in tokens;
      RunDeleteKeeps(DeleteStage(a, tokens[0], n), tokens[1..], n);
    }
  }

  /** `delete all` leaves no build and no REST API of the configured names. */
  lemma DeleteAllClears(a: Account, n: Names)
    ensures FirstNamed(RunDelete(a, AllStages, n).builds, n.build).None?
    ensures FirstNamed(RunDelete(a, AllStages, n).apis, n.restApi).None?
  {
    var head := [BuildStage, FleetStage, UserPoolStage, LambdasStage];
    assert AllStages == head + [RestApiStage];
    assert AllStages[1..] == head[1..] + [RestApiStage];
    RunDeleteKeeps(DeleteStage(a, BuildStage, n), AllStages[1..], n);
    RunDeleteAppend(a, head, [RestApiStage], n);
  }

  /** `all` stands for the five stages in order, and whatever follows it is ignored. */
  lemma ProcessAllExpands(a: Account, verb: string, extra: seq<string>, n: Names, env: Env)
    ensures ProcessSpec(a, [verb, "all"] + extra, n, env).run == ProcessSpec(a, [verb] + AllStages, n, env).run
  {
    assert ([verb, "all"] + extra)[1..] == ["all"] + extra;
    assert ([verb] + AllStages)[1..] == AllStages;
  }

  /** After a completed create or delete without `all`, the configuration's own token list is empty. */
  lemma ProcessDrainsOwnList(a: Account, tokens: seq<string>, n: Names, env: Env)
    requires tokens != [] && (tokens[0] == "create" || tokens[0] == "delete")
    requires ProcessSpec(a, tokens, n, env).run.outcome == Completed
    requires |tokens| == 1 || tokens[1] != "all"
    ensures ProcessSpec(a, tokens, n, env).leftInConfig == []
  {
  }

  // The dispatcher as the backend runs it.

  /** The `match` of process_create_commands for one token. */
  method CreateStageRun(p: Provider, token: string, n: Names, env: Env) returns (outcome: Outcome)
    requires p.Valid()
    modifies p
    ensures p.Valid()
    ensures Step(p.Snapshot(), outcome) == CreateStage(old(p.Snapshot()), token, n, env)
  {
    if token == BuildStage {
      outcome := Provisioners.CreateBuild(p, n, env);
    } else if token == FleetStage {
      outcome := Provisioners.CreateFleet(p, n, env.buildProgress);
    } else if token == UserPoolStage {
      outcome := Provisioners.CreateUserPool(p, n);
    } else if token == LambdasStage {
      outcome := Provisioners.CreateLambdas(p, n, env);
    } else if token == RestApiStage {
      outcome := Provisioners.CreateRestApi(p, n);
    } else {
      outcome := Completed;
    }
  }

  /** The `match` of process_delete_commands for one token. */
  method DeleteStageRun(p: Provider, token: string, n: Names)
    requires p.Valid()
    modifies p
    ensures p.Valid()
    ensures p.Snapshot() == DeleteStage(old(p.Snapshot()), token, n)
  {
    if token == BuildStage {
      Provisioners.DeleteBuild(p, n);
    } else if token == FleetStage {
      Provisioners.DeleteFleet(p, n);
    } else if token == UserPoolStage {
      Provisioners.DeleteUserPool(p, n);
    } else if token == LambdasStage {
      Provisioners.DeleteLambdas(p, n);
    } else if token == RestApiStage {
      Provisioners.DeleteRestApi(p, n);
    }
  }

  /** process_create_commands: pop the front token and dispatch it until the list is empty or a handler raises. */
  method ProcessCreateCommands(p: Provider, commands: TokenList, n: Names, env: Env) returns (outcome: Outcome)
    requires p.Valid()
    modifies p, commands
    ensures p.Valid()
    ensures var r := RunCreate(old(p.Snapshot()), old(commands.items), n, env);
      p.Snapshot() == r.account && outcome == r.outcome && commands.items == r.rest
  {
    ghost var goal := RunCreate(p.Snapshot(), commands.items, n, env);
    outcome := Completed;
    while |commands.items| > 0
      invariant p.Valid()
      invariant outcome == Completed
      invariant RunCreate(p.Snapshot(), commands.items, n, env) == goal
      decreases |commands.items|
    {
      ghost var before := p.Snapshot();
      ghost var items := commands.items;
      var command := commands.PopFront();
      assert items == [command] + commands.items;
      RunCreateCons(before, command, commands.items, n, env);
      outcome := CreateStageRun(p, command, n, env);
      if outcome != Completed {
        return;
      }
    }
  }

  /** process_delete_commands: pop the front token and dispatch it until the list is empty. */
  method ProcessDeleteCommands(p: Provider, commands: TokenList, n: Names)
    requires p.Valid()
    modifies p, commands
    ensures p.Valid()
    ensures p.Snapshot() == RunDelete(old(p.Snapshot()), old(commands.items), n) && commands.items == []
  {
    ghost var goal := RunDelete(p.Snapshot(), commands.items, n);
    while |commands.items| > 0
      invariant p.Valid()
      invariant RunDelete(p.Snapshot(), commands.items, n) == goal
      decreases |commands.items|
    {
      ghost var items := commands.items;
      var command := commands.PopFront();
      assert items[1..] == commands.items;
      DeleteStageRun(p, command, n);
    }
  }

  /** process_build_config: run the configuration's command list with the configured names. */
  method ProcessBuildConfig(p: Provider, config: BuildConfig, env: Env) returns (outcome: Outcome)
    requires p.Valid()
    requires Configured(config.entries) && CommandsKey in config.entries && config.entries[CommandsKey].List?
    modifies p, config.entries[CommandsKey].tokens
    ensures p.Valid()
    ensures var r := ProcessSpec(old(p.Snapshot()), old(config.entries[CommandsKey].tokens.items), NamesOf(config.entries), env);
      && p.Snapshot() == r.run.account
      && outcome == r.run.outcome
      && config.entries[CommandsKey].tokens.items == r.leftInConfig
  {
    outcome := ProcessCommandList(p, config.entries[CommandsKey].tokens, NamesOf(config.entries), env);
  }

  /** The body of process_build_config: pop the verb, expand `all`, and run the create or delete commands. */
  method ProcessCommandList(p: Provider, commands: TokenList, n: Names, env: Env) returns (outcome: Outcome)
    requires p.Valid()
    modifies p, commands
    ensures p.Valid()
    ensures var r := ProcessSpec(old(p.Snapshot()), old(commands.items), n, env);
      p.Snapshot() == r.run.account && outcome == r.run.outcome && commands.items == r.leftInConfig
  {
    if |commands.items| == 0 {
      return Completed;
    }
    var verb := commands.PopFront();
    var sub := commands;
    if |sub.items| > 0 && sub.items[0] == "all" {
      sub := new TokenList(AllStages);
    }
    if verb == "create" {
      outcome := ProcessCreateCommands(p, sub, n, env);
    } else if verb == "delete" {
      ProcessDeleteCommands(p, sub, n);
      outcome := Completed;
    } else {
      outcome := Completed;
    }
  }

  /** The module-level run: `parse_args` templating, then `process_build_config`. */
  method Backend(p: Provider, config: BuildConfig, env: Env) returns (outcome: Outcome)
    requires p.Valid()
    requires PrefixKey in config.entries && config.entries[PrefixKey].Str?
    requires Configured(config.entries) && CommandsKey in config.entries && config.entries[CommandsKey].List?
    modifies p, config, config.entries[CommandsKey].tokens
    ensures p.Valid()
    ensures var entries := Prefixed(old(config.entries));
      var r := ProcessSpec(old(p.Snapshot()), old(config.entries[CommandsKey].tokens.items), NamesOf(entries), env);
      config.entries == entries && p.Snapshot() == r.run.account && outcome == r.run.outcome
  {
    config.ApplyPrefix();
    PrefixedConfigured(old(config.entries));
    outcome := ProcessBuildConfig(p, config, env);
  }
}
