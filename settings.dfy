/**
 * The backend's configuration: the dictionary `parse_args` returns, the `[prefix]`
 * templating applied to each of its string values, and the resource names the
 * create and delete handlers read from it.
 */
module Settings {
  import opened Text

  /** A Python list of command tokens; it is shared by reference, so popping it is seen by every holder. */
  class TokenList {
    var items: seq<string>

    constructor (initial: seq<string>)
      ensures items == initial
    {
      items := initial;
    }

    /** `list.pop(0)`: removes and returns the front token. */
    method PopFront() returns (token: string)
      requires items != []
      modifies this
      ensures token == old(items)[0] && items == old(items)[1..]
    {
      token := items[0];
      items := items[1..];
    }
  }

  /** A value of the configuration dictionary: a string, or the list of positional command tokens. */
  datatype Value = Str(s: string) | List(tokens: TokenList)

  const Placeholder: string := "[prefix]"

  const PrefixKey: string := "prefix"
  const CommandsKey: string := "commands"
  const BuildNameKey: string := "build_name"
  const FleetNameKey: string := "fleet_name"
  const UserPoolNameKey: string := "user_pool_name"
  const LoginClientNameKey: string := "user_pool_login_client_name"
  const SubdomainKey: string := "user_pool_subdomain_prefix"
  const StartSessionLambdaKey: string := "lambda_start_session_name"
  const LoginLambdaKey: string := "lambda_login_name"
  const RestApiNameKey: string := "rest_api_name"
  const StageNameKey: string := "rest_api_stage_name"
  const LoginPathKey: string := "rest_api_login_path_part"
  const StartSessionPathKey: string := "rest_api_start_session_path_part"
  const AuthorizerNameKey: string := "rest_api_cognito_authorizer_name"

  /** The keys whose string values name the resources the handlers create, find and delete. */
  const NameKeys: seq<string> := [
    BuildNameKey, FleetNameKey, UserPoolNameKey, LoginClientNameKey, SubdomainKey,
    StartSessionLambdaKey, LoginLambdaKey, RestApiNameKey, StageNameKey, LoginPathKey,
    StartSessionPathKey, AuthorizerNameKey]

  /** Every resource-name key is present and holds a string (what `parse_args` always produces). */
  predicate Configured(entries: map<string, Value>) {
    forall k :: k in NameKeys ==> k in entries && entries[k].Str?
  }

  /** The resource names, read out of a configured dictionary. */
  datatype Names = Names(
    build: string, fleet: string, userPool: string, loginClient: string, subdomain: string,
    lambdaStartSession: string, lambdaLogin: string, restApi: string, stage: string,
    loginPath: string, startSessionPath: string, authorizer: string)

  function NamesOf(entries: map<string, Value>): Names
    requires Configured(entries)
  {
    Names(
      entries[BuildNameKey].s, entries[FleetNameKey].s, entries[UserPoolNameKey].s,
      entries[LoginClientNameKey].s, entries[SubdomainKey].s, entries[StartSessionLambdaKey].s,
      entries[LoginLambdaKey].s, entries[RestApiNameKey].s, entries[StageNameKey].s,
      entries[LoginPathKey].s, entries[StartSessionPathKey].s, entries[AuthorizerNameKey].s)
  }

  /**
   * One value after templating. A string is cut at every occurrence of `[prefix]` into
   * pieces free of it that join back into the original, and the result joins the same
   * pieces with the prefix instead; any other value is kept as it is.
   */
  function Templated(v: Value, prefix: string): (r: Value)
    ensures v.List? ==> r == v
    ensures v.Str? ==> r.Str?
    ensures v.Str? ==> (
      var pieces := Split(v.s, Placeholder);
      && Join(Placeholder, pieces) == v.s
      && r.s == Join(prefix, pieces)
      && forall k :: 0 <= k < |pieces| ==> !Contains(pieces[k], Placeholder))
  {
    if v.Str? then
      ReplaceIsJoinOfSplit(v.s, Placeholder, prefix);
      SplitJoinRoundTrip(v.s, Placeholder);
      SplitPiecesAreFree(v.s, Placeholder);
      Str(Replace(v.s, Placeholder, prefix))
    else
      v
  }

  /** The dictionary after the loop of `parse_args`: every value templated with the prefix read before the loop. */
  function Prefixed(entries: map<string, Value>): (r: map<string, Value>)
    requires PrefixKey in entries && entries[PrefixKey].Str?
    ensures r.Keys == entries.Keys
    ensures forall k :: k in r ==> r[k] == Templated(entries[k], entries[PrefixKey].s)
  {
    map k | k in entries :: Templated(entries[k], entries[PrefixKey].s)
  }

  /** The dictionary `parse_args` builds and rewrites in place. */
  class BuildConfig {
    var entries: map<string, Value>

    constructor (initial: map<string, Value>)
      ensures entries == initial
    {
      entries := initial;
    }

    /** The `[prefix]` loop of `parse_args`: each string value has the placeholder replaced by the prefix. */
    method ApplyPrefix()
      requires PrefixKey in entries && entries[PrefixKey].Str?
      modifies this
      ensures entries == Prefixed(old(entries))
    {
      var prefix := entries[PrefixKey].s;
      var pending := entries.Keys;
      while pending != {}
        invariant entries.Keys == old(entries).Keys && pending <= entries.Keys
        invariant forall k :: k in entries ==>
          entries[k] == if k in pending then old(entries)[k] else Templated(old(entries)[k], prefix)
        decreases |pending|
      {
        var key :| key in pending;
        entries := entries[key := Templated(entries[key], prefix)];
        pending := pending - {key};
      }
    }
  }

  /** Without a `[` a string cannot hold the placeholder. */
  lemma NoBracketNoPlaceholder(t: string)
    requires '[' !in t
    ensures !Contains(t, Placeholder)
  {
    assert Placeholder[0] == '[';
  }

  /** A default such as `[prefix]-build` becomes the prefix followed by the rest of the default. */
  lemma {:induction false} TemplatedDefault(prefix: string, rest: string)
    requires '[' !in rest
    ensures Templated(Str(Placeholder + rest), prefix) == Str(prefix + rest)
  {
    ReplaceLeading(rest, Placeholder, prefix);
    NoBracketNoPlaceholder(rest);
    ReplaceAbsent(rest, Placeholder, prefix);
  }

  /** Templating keeps the dictionary configured: the same keys, strings stay strings. */
  lemma PrefixedConfigured(entries: map<string, Value>)
    requires PrefixKey in entries && entries[PrefixKey].Str? && Configured(entries)
    ensures Configured(Prefixed(entries))
  {
  }
}
