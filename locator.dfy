/**
 * The `lookup_*` helpers of the backend: each lists one collection of the account and
 * returns the id of the first record whose name is exactly the query, or None. The
 * Cognito lookups ask for a single page of at most sixty pools (or clients) and never
 * ask for the next page, so a match further down the list is not seen.
 */
module Locator {
  import opened Wrappers
  import opened Records
  import opened Cloud

  /** The scan every lookup performs: walk the listing front to back, stop at the first exact name. */
  method Scan<A>(items: seq<Named<A>>, name: string) returns (r: Option<Id>)
    ensures r == FirstId(items, name)
  {
    var i := 0;
    while i < |items|
      invariant 0 <= i <= |items|
      invariant FirstId(items[i..], name) == FirstId(items, name)
    {
      assert items[i..][1..] == items[i + 1..];
      if items[i].name == name {
        return Some(items[i].id);
      }
      i := i + 1;
    }
    return None;
  }

  /** The pool id `lookup_cognito_pool_id` finds: a match on the first page only. */
  function PoolId(pools: seq<Named<PoolInfo>>, poolName: string): (r: Option<Id>)
    ensures r.Some? ==> exists i :: 0 <= i < |pools| && i < MaxResults && pools[i].id == r.value && pools[i].name == poolName
  {
    var r := FirstId(Page(pools), poolName);
    FirstNamedIsFirstMatch(Page(pools), poolName);
    r
  }

  /** The client id `lookup_cognito_pool_client_id` finds: the first page of the found pool's clients. */
  function ClientId(pools: seq<Named<PoolInfo>>, poolName: string, clientName: string): (r: Option<Id>)
    ensures PoolId(pools, poolName).None? ==> r.None?
    ensures r.Some? ==> InfoOf(pools, PoolId(pools, poolName).value).Some?
    ensures r.Some? ==> exists c :: c in InfoOf(pools, PoolId(pools, poolName).value).value.clients && c.id == r.value && c.name == clientName
  {
    match PoolId(pools, poolName)
    case None => None
    case Some(pool) =>
      match InfoOf(pools, pool)
      case None => None
      case Some(info) =>
        var r := FirstId(Page(info.clients), clientName);
        FirstNamedIsFirstMatch(Page(info.clients), clientName);
        r
  }

  /** `lookup_build_id`: the first build with that name; the account is only read. */
  method LookupBuildId(p: Provider, name: string) returns (r: Option<Id>)
    ensures r == FirstId(p.builds, name)
  {
    r := Scan(p.builds, name);
  }

  /** `lookup_fleet_id`: the first fleet with that name. */
  method LookupFleetId(p: Provider, name: string) returns (r: Option<Id>)
    ensures r == FirstId(p.fleets, name)
  {
    r := Scan(p.fleets, name);
  }

  /** `lookup_cognito_pool_id`: the first pool with that name among the first sixty listed. */
  method LookupPoolId(p: Provider, name: string) returns (r: Option<Id>)
    ensures r == PoolId(p.pools, name)
  {
    r := Scan(Page(p.pools), name);
  }

  /** `lookup_cognito_pool_client_id`: None when the pool is not found, else a scan of its first sixty clients. */
  method LookupClientId(p: Provider, poolName: string, clientName: string) returns (r: Option<Id>)
    ensures r == ClientId(p.pools, poolName, clientName)
  {
    var pool := LookupPoolId(p, poolName);
    r := None;
    if pool.Some? {
      var info := InfoOf(p.pools, pool.value);
      if info.Some? {
        r := Scan(Page(info.value.clients), clientName);
      }
    }
  }

  /**
   * `lookup_lambda_arn`: `get_function` by name, with every failure turned into None.
   * AWS keeps function names unique; the model returns the first match.
   */
  method LookupFunctionArn(p: Provider, name: string) returns (r: Option<Id>)
    ensures r == FirstId(p.functions, name)
  {
    r := Scan(p.functions, name);
  }

  /** `lookup_rest_api_id`: the first REST API with that name. */
  method LookupRestApiId(p: Provider, name: string) returns (r: Option<Id>)
    ensures r == FirstId(p.apis, name)
  {
    r := Scan(p.apis, name);
  }

  /** A pool is found exactly when one of the first sixty listed pools has the name, and it is the first such one. */
  lemma {:induction false} PoolIdIsFirstOnPage(pools: seq<Named<PoolInfo>>, poolName: string)
    ensures PoolId(pools, poolName).None? <==> forall i :: 0 <= i < |pools| && i < MaxResults ==> pools[i].name != poolName
    ensures PoolId(pools, poolName).Some? ==>
      exists i :: 0 <= i < |pools| && i < MaxResults && FirstMatchAt(pools, poolName, i) && pools[i].id == PoolId(pools, poolName).value
  {
    var page := Page(pools);
    FirstNamedIsFirstMatch(page, poolName);
    assert |page| == if |pools| < MaxResults then |pools| else MaxResults;
    forall i | 0 <= i < |page| ensures page[i] == pools[i] { }
  }

  /**
   * A client is found exactly when a pool is found and one of the first sixty clients of that
   * pool has the name, and it is the first such client; no pool means no client.
   */
  lemma ClientIdIsFirstOnPage(pools: seq<Named<PoolInfo>>, poolName: string, clientName: string)
    requires PoolId(pools, poolName).Some?
    ensures InfoOf(pools, PoolId(pools, poolName).value).Some?
    ensures var clients := InfoOf(pools, PoolId(pools, poolName).value).value.clients;
      ClientId(pools, poolName, clientName).None? <==>
        forall i :: 0 <= i < |clients| && i < MaxResults ==> clients[i].name != clientName
    ensures var clients := InfoOf(pools, PoolId(pools, poolName).value).value.clients;
      ClientId(pools, poolName, clientName).Some? ==>
        exists i :: 0 <= i < |clients| && i < MaxResults && FirstMatchAt(clients, clientName, i)
          && clients[i].id == ClientId(pools, poolName, clientName).value
  {
    InfoOfPresent(pools, PoolId(pools, poolName).value);
    var clients := InfoOf(pools, PoolId(pools, poolName).value).value.clients;
    var page := Page(clients);
    FirstNamedIsFirstMatch(page, clientName);
    forall i | 0 <= i < |page| ensures page[i] == clients[i] { }
    if FirstNamed(page, clientName).Some? {
      var i: nat :| FirstMatchAt(page, clientName, i) && page[i] == FirstNamed(page, clientName).value;
      assert FirstMatchAt(clients, clientName, i);
    }
  }
}
