/**
 * Every provider collection the backend touches (builds, fleets, user pools and their
 * clients, roles, functions, REST APIs) is a list of named records with a provider-issued
 * id. This module holds the searches and filters over such lists.
 */
module Records {
  import opened Wrappers

  /** A provider-issued identifier (build id, fleet id, pool id, ARN, ...). */
  type Id = nat

  datatype Named<A> = Named(name: string, id: Id, info: A)

  /** The number of results one call of a Cognito listing returns (`MaxResults=60`). */
  const MaxResults: nat := 60

  /** The first record whose name is exactly `name`. */
  function FirstNamed<A>(s: seq<Named<A>>, name: string): Option<Named<A>> {
    if s == [] then None
    else if s[0].name == name then Some(s[0])
    else FirstNamed(s[1..], name)
  }

  /** The id of the first record whose name is exactly `name`: what every `lookup_*` returns. */
  function FirstId<A>(s: seq<Named<A>>, name: string): Option<Id> {
    match FirstNamed(s, name)
    case None => None
    case Some(r) => Some(r.id)
  }

  /** Record `i` is the first one named `name`. */
  predicate FirstMatchAt<A>(s: seq<Named<A>>, name: string, i: nat) {
    i < |s| && s[i].name == name && forall j :: 0 <= j < i ==> s[j].name != name
  }

  /** `FirstNamed` finds nothing exactly when no record has the name, and otherwise the first that has it. */
  lemma {:induction false} FirstNamedIsFirstMatch<A>(s: seq<Named<A>>, name: string)
    ensures FirstNamed(s, name).None? <==> forall i :: 0 <= i < |s| ==> s[i].name != name
    ensures FirstNamed(s, name).Some? ==>
      exists i: nat :: FirstMatchAt(s, name, i) && s[i] == FirstNamed(s, name).value
  {
    if s != [] && s[0].name != name {
      FirstNamedIsFirstMatch(s[1..], name);
      if FirstNamed(s[1..], name).Some? {
        var i: nat :| FirstMatchAt(s[1..], name, i) && s[1..][i] == FirstNamed(s[1..], name).value;
        assert FirstMatchAt(s, name, i + 1);
      } else {
        forall i | 0 <= i < |s|
          ensures s[i].name != name
        {
          if i > 0 { assert s[i] == s[1..][i - 1]; }
        }
      }
    } else if s != [] {
      assert FirstMatchAt(s, name, 0);
    }
  }

  /** Conversely, the first record with the name is the one `FirstNamed` returns. */
  lemma {:induction false} FirstMatchIsFirstNamed<A>(s: seq<Named<A>>, name: string, i: nat)
    requires FirstMatchAt(s, name, i)
    ensures FirstNamed(s, name) == Some(s[i])
  {
    if i > 0 {
      assert FirstMatchAt(s[1..], name, i - 1);
      FirstMatchIsFirstNamed(s[1..], name, i - 1);
    }
  }

  /** A record appended behind the others is found when nothing earlier has its name. */
  lemma FirstNamedAppend<A>(s: seq<Named<A>>, r: Named<A>, name: string)
    ensures FirstNamed(s, name).Some? ==> FirstNamed(s + [r], name) == FirstNamed(s, name)
    ensures FirstNamed(s, name).None? && r.name == name ==> FirstNamed(s + [r], name) == Some(r)
  {
    FirstNamedIsFirstMatch(s, name);
    if FirstNamed(s, name).Some? {
      var i: nat :| FirstMatchAt(s, name, i) && s[i] == FirstNamed(s, name).value;
      assert FirstMatchAt(s + [r], name, i);
      FirstMatchIsFirstNamed(s + [r], name, i);
    } else if r.name == name {
      assert FirstMatchAt(s + [r], name, |s|);
      FirstMatchIsFirstNamed(s + [r], name, |s|);
    }
  }

  /** Appending a record keeps every lookup that already found something. */
  lemma AppendKeepsLookups<A>(s: seq<Named<A>>, r: Named<A>)
    ensures forall name :: FirstNamed(s, name).Some? ==> FirstNamed(s + [r], name) == FirstNamed(s, name)
  {
    forall name | FirstNamed(s, name).Some? ensures FirstNamed(s + [r], name) == FirstNamed(s, name) {
      FirstNamedAppend(s, r, name);
    }
  }

  /** The one page of results a Cognito listing returns: at most `MaxResults` records. */
  function Page<A>(s: seq<A>): (r: seq<A>)
    ensures |r| <= MaxResults && r <= s
    ensures |s| <= MaxResults ==> r == s
  {
    if |s| <= MaxResults then s else s[..MaxResults]
  }

  /**
   * A lookup through one page misses a record that sits past the page, even though a
   * record with that name exists: the Cognito lookups never ask for the next page.
   */
  lemma PageMissesLaterRecords<A>(s: seq<Named<A>>, name: string, i: nat)
    requires MaxResults <= i < |s| && s[i].name == name
    requires forall j :: 0 <= j < MaxResults ==> s[j].name != name
    ensures FirstNamed(Page(s), name) == None
    ensures FirstNamed(s, name).Some?
  {
    FirstNamedIsFirstMatch(Page(s), name);
    FirstNamedIsFirstMatch(s, name);
  }

  /** The info of the first record with id `id`: what a `describe_*` call by id reports. */
  function InfoOf<A>(s: seq<Named<A>>, id: Id): Option<A> {
    if s == [] then None
    else if s[0].id == id then Some(s[0].info)
    else InfoOf(s[1..], id)
  }

  /** The records whose name is not `name`, in their order. */
  function WithoutName<A>(s: seq<Named<A>>, name: string): seq<Named<A>> {
    if s == [] then []
    else (if s[0].name == name then [] else [s[0]]) + WithoutName(s[1..], name)
  }

  /** The ids of the records named `name`, in their order. */
  function NamedIds<A>(s: seq<Named<A>>, name: string): seq<Id> {
    if s == [] then []
    else (if s[0].name == name then [s[0].id] else []) + NamedIds(s[1..], name)
  }

  /** The records whose id is not `id`: the list after a delete by id. */
  function RemoveId<A>(s: seq<Named<A>>, id: Id): seq<Named<A>> {
    if s == [] then []
    else (if s[0].id == id then [] else [s[0]]) + RemoveId(s[1..], id)
  }

  /** The records with id `id` carry `info` instead of their own. */
  function Retag<A>(s: seq<Named<A>>, id: Id, info: A): seq<Named<A>> {
    if s == [] then []
    else [if s[0].id == id then s[0].(info := info) else s[0]] + Retag(s[1..], id, info)
  }

  /** Ids are pairwise distinct and all below the provider's next id. */
  ghost predicate WellIdentified<A>(s: seq<Named<A>>, next: Id) {
    && (forall i, j :: 0 <= i < j < |s| ==> s[i].id != s[j].id)
    && (forall i :: 0 <= i < |s| ==> s[i].id < next)
  }

  /** Exactly the records with another name survive, and none with the name. */
  lemma {:induction false} WithoutNameMembers<A>(s: seq<Named<A>>, name: string, r: Named<A>)
    ensures r in WithoutName(s, name) <==> r in s && r.name != name
  {
    if s != [] {
      WithoutNameMembers(s[1..], name, r);
      assert r in s <==> r == s[0] || r in s[1..];
    }
  }

  /** After the filter no record has the name, and the survivors are exactly the others. */
  lemma {:induction false} NoneLeft<A>(s: seq<Named<A>>, name: string)
    ensures FirstNamed(WithoutName(s, name), name).None?
    ensures forall r :: r in WithoutName(s, name) <==> r in s && r.name != name
  {
    forall r ensures r in WithoutName(s, name) <==> r in s && r.name != name {
      WithoutNameMembers(s, name, r);
    }
    var kept := WithoutName(s, name);
    forall i | 0 <= i < |kept| ensures kept[i].name != name {
      WithoutNameMembers(s, name, kept[i]);
    }
    FirstNamedIsFirstMatch(kept, name);
  }

  /** Every record is either kept by the filter or has its id listed: one id per same-named record. */
  lemma {:induction false} NamedIdsCount<A>(s: seq<Named<A>>, name: string)
    ensures |NamedIds(s, name)| + |WithoutName(s, name)| == |s|
  {
    if s != [] { NamedIdsCount(s[1..], name); }
  }

  /** The listed ids are exactly the ids of the records named `name`. */
  lemma {:induction false} NamedIdsMember<A>(s: seq<Named<A>>, name: string, id: Id)
    ensures id in NamedIds(s, name) <==> exists x :: x in s && x.name == name && x.id == id
  {
    if s != [] {
      NamedIdsMember(s[1..], name, id);
      assert forall x :: x in s <==> x == s[0] || x in s[1..];
    }
  }

  /** With no record named `name`, the filter keeps everything and lists no id. */
  lemma {:induction false} NoneNamed<A>(s: seq<Named<A>>, name: string)
    requires FirstNamed(s, name).None?
    ensures WithoutName(s, name) == s && NamedIds(s, name) == []
  {
    if s != [] {
      NoneNamed(s[1..], name);
    }
  }

  /** Deleting an id keeps exactly the records with other ids, and shortens a list that held it. */
  lemma RemoveIdKeeps<A>(s: seq<Named<A>>, id: Id, next: Id)
    ensures forall r :: r in RemoveId(s, id) <==> r in s && r.id != id
    ensures |RemoveId(s, id)| <= |s|
    ensures (exists i :: 0 <= i < |s| && s[i].id == id) ==> |RemoveId(s, id)| < |s|
    ensures WellIdentified(s, next) ==> WellIdentified(RemoveId(s, id), next)
  {
    RemoveIdMembers(s, id);
    RemoveIdShortens(s, id);
    if WellIdentified(s, next) {
      RemoveIdWellIdentified(s, id, next);
    }
  }

  lemma RemoveIdMembers<A>(s: seq<Named<A>>, id: Id)
    ensures forall r :: r in RemoveId(s, id) <==> r in s && r.id != id
  {
    forall r ensures r in RemoveId(s, id) <==> r in s && r.id != id {
      RemoveIdMember(s, id, r);
    }
  }

  lemma {:induction false} RemoveIdMember<A>(s: seq<Named<A>>, id: Id, r: Named<A>)
    ensures r in RemoveId(s, id) <==> r in s && r.id != id
  {
    if s != [] {
      RemoveIdMember(s[1..], id, r);
      assert r in s <==> r == s[0] || r in s[1..];
    }
  }

  /** Deleting the id of a record appended behind records with other ids gives back the list before the append. */
  lemma {:induction false} RemoveIdAppended<A>(s: seq<Named<A>>, r: Named<A>)
    requires forall i :: 0 <= i < |s| ==> s[i].id != r.id
    ensures RemoveId(s + [r], r.id) == s
  {
    if s == [] {
      assert [r][1..] == [];
    } else {
      assert (s + [r])[1..] == s[1..] + [r];
      RemoveIdAppended(s[1..], r);
    }
  }

  /** Deleting an id that no record of `name` carries leaves the lookup of `name` as it was. */
  lemma {:induction false} RemoveIdKeepsLookup<A>(s: seq<Named<A>>, id: Id, name: string)
    requires forall i :: 0 <= i < |s| && s[i].id == id ==> s[i].name != name
    ensures FirstNamed(RemoveId(s, id), name) == FirstNamed(s, name)
  {
    if s != [] {
      RemoveIdKeepsLookup(s[1..], id, name);
      var t := RemoveId(s[1..], id);
      if s[0].id != id {
        assert RemoveId(s, id) == [s[0]] + t;
        assert ([s[0]] + t)[1..] == t;
      } else {
        assert s[0].name != name;
        assert RemoveId(s, id) == t;
      }
    }
  }

  /** With distinct ids, the id a lookup returns belongs to no record of another name. */
  lemma FoundIdIsOwn<A>(s: seq<Named<A>>, name: string, id: Id, next: Id)
    requires WellIdentified(s, next) && FirstId(s, name) == Some(id)
    ensures forall i :: 0 <= i < |s| && s[i].id == id ==> s[i].name == name
  {
    FirstNamedIsFirstMatch(s, name);
    var j: nat :| FirstMatchAt(s, name, j) && s[j] == FirstNamed(s, name).value;
    forall i | 0 <= i < |s| && s[i].id == id ensures s[i].name == name {
      assert s[i].id == s[j].id;
    }
  }

  /** Retagging one id leaves every record with another id where it was. */
  lemma {:induction false} RetagKeepsOthers<A>(s: seq<Named<A>>, id: Id, info: A, x: Named<A>)
    requires x.id != id
    ensures x in Retag(s, id, info) <==> x in s
  {
    if s != [] {
      RetagKeepsOthers(s[1..], id, info, x);
      assert s == [s[0]] + s[1..];
    }
  }

  lemma RetagKeepsOthersAll<A>(s: seq<Named<A>>, id: Id, info: A)
    ensures forall x: Named<A> :: x.id != id ==> (x in Retag(s, id, info) <==> x in s)
  {
    forall x: Named<A> | x.id != id ensures x in Retag(s, id, info) <==> x in s {
      RetagKeepsOthers(s, id, info, x);
    }
  }

  lemma {:induction false} RemoveIdShortens<A>(s: seq<Named<A>>, id: Id)
    ensures |RemoveId(s, id)| <= |s|
    ensures (exists i :: 0 <= i < |s| && s[i].id == id) ==> |RemoveId(s, id)| < |s|
  {
    if s != [] {
      RemoveIdShortens(s[1..], id);
      if exists i :: 0 <= i < |s| && s[i].id == id {
        var i :| 0 <= i < |s| && s[i].id == id;
        if i > 0 { assert s[1..][i - 1].id == id; }
      }
    }
  }

  lemma {:induction false} RemoveIdWellIdentified<A>(s: seq<Named<A>>, id: Id, next: Id)
    requires WellIdentified(s, next)
    ensures WellIdentified(RemoveId(s, id), next)
  {
    if s != [] {
      WellIdentifiedTail(s, next);
      RemoveIdWellIdentified(s[1..], id, next);
      var t := RemoveId(s[1..], id);
      RemoveIdMembers(s[1..], id);
      forall r | r in t ensures r.id != s[0].id {
        RemoveIdMember(s[1..], id, r);
        var k :| 0 <= k < |s[1..]| && s[1..][k] == r;
      }
    }
  }

  /** Dropping every record of a name keeps a well-identified list well identified. */
  lemma {:induction false} WithoutNameKeeps<A>(s: seq<Named<A>>, name: string, next: Id)
    ensures WellIdentified(s, next) ==> WellIdentified(WithoutName(s, name), next)
  {
    if s != [] && WellIdentified(s, next) {
      WithoutNameKeeps(s[1..], name, next);
      var t := WithoutName(s[1..], name);
      forall r | r in t ensures r.id != s[0].id {
        WithoutNameMembers(s[1..], name, r);
        var k :| 0 <= k < |s[1..]| && s[1..][k] == r;
        assert s[k + 1] == r;
      }
    }
  }

  /** Deleting an id no record has changes nothing. */
  lemma {:induction false} RemoveAbsentId<A>(s: seq<Named<A>>, id: Id)
    requires forall i :: 0 <= i < |s| ==> s[i].id != id
    ensures RemoveId(s, id) == s
  {
    if s != [] {
      RemoveAbsentId(s[1..], id);
    }
  }

  /** The tail of a well-identified list is well identified and holds no id of the head. */
  lemma WellIdentifiedTail<A>(s: seq<Named<A>>, next: Id)
    requires WellIdentified(s, next) && s != []
    ensures WellIdentified(s[1..], next)
    ensures forall i :: 0 <= i < |s[1..]| ==> s[1..][i].id != s[0].id
  {
    forall i | 0 <= i < |s[1..]| ensures s[1..][i].id != s[0].id {
      assert s[1..][i] == s[i + 1];
    }
  }

  /**
   * Deleting the id a lookup returned removes exactly the first record with the name:
   * its id heads the list of same-named ids, and the other-named records stay as they were.
   */
  lemma {:induction false} DeleteFirstMatch<A>(s: seq<Named<A>>, name: string, id: Id, next: Id)
    requires WellIdentified(s, next) && FirstId(s, name) == Some(id)
    ensures NamedIds(s, name) == [id] + NamedIds(RemoveId(s, id), name)
    ensures WithoutName(RemoveId(s, id), name) == WithoutName(s, name)
    ensures WellIdentified(RemoveId(s, id), next)
    ensures |RemoveId(s, id)| < |s|
    decreases |s|, 1
  {
    RemoveIdKeeps(s, id, next);
    FirstNamedIsFirstMatch(s, name);
    var i: nat :| FirstMatchAt(s, name, i) && s[i] == FirstNamed(s, name).value;
    assert s[i].id == id;
    if s[0].name == name {
      DeleteHeadMatch(s, name, id, next);
    } else {
      DeleteLaterMatch(s, name, id, next);
    }
  }

  /** The case of `DeleteFirstMatch` where the head is the record deleted. */
  lemma DeleteHeadMatch<A>(s: seq<Named<A>>, name: string, id: Id, next: Id)
    requires WellIdentified(s, next) && s != [] && s[0].name == name && s[0].id == id
    ensures NamedIds(s, name) == [id] + NamedIds(RemoveId(s, id), name)
    ensures WithoutName(RemoveId(s, id), name) == WithoutName(s, name)
  {
    WellIdentifiedTail(s, next);
    RemoveAbsentId(s[1..], id);
    assert RemoveId(s, id) == [] + RemoveId(s[1..], id) == s[1..];
    assert NamedIds(s, name) == [id] + NamedIds(s[1..], name);
    assert WithoutName(s, name) == [] + WithoutName(s[1..], name);
  }

  /** The case of `DeleteFirstMatch` where the head has another name and stays. */
  lemma {:induction false} DeleteLaterMatch<A>(s: seq<Named<A>>, name: string, id: Id, next: Id)
    requires WellIdentified(s, next) && FirstId(s, name) == Some(id)
    requires s != [] && s[0].name != name
    ensures NamedIds(s, name) == [id] + NamedIds(RemoveId(s, id), name)
    ensures WithoutName(RemoveId(s, id), name) == WithoutName(s, name)
    decreases |s|, 0
  {
    WellIdentifiedTail(s, next);
    FirstNamedIsFirstMatch(s[1..], name);
    var i: nat :| FirstMatchAt(s[1..], name, i) && s[1..][i] == FirstNamed(s[1..], name).value;
    assert s[1..][i].id == id;
    DeleteFirstMatch(s[1..], name, id, next);
    var t := RemoveId(s[1..], id);
    assert s[0].id != id;
    assert RemoveId(s, id) == [s[0]] + t;
    assert ([s[0]] + t)[1..] == t;
    assert NamedIds(s, name) == NamedIds(s[1..], name);
    assert NamedIds([s[0]] + t, name) == NamedIds(t, name);
    assert WithoutName(s, name) == [s[0]] + WithoutName(s[1..], name);
    assert WithoutName([s[0]] + t, name) == [s[0]] + WithoutName(t, name);
  }

  /** `t` lists the same names and ids as `s`, in the same order: only the records' details may differ. */
  predicate SameKeys<A>(s: seq<Named<A>>, t: seq<Named<A>>) {
    |t| == |s| && forall i :: 0 <= i < |s| ==> t[i].name == s[i].name && t[i].id == s[i].id
  }

  /** Retagging keeps every name and id, so lookups and id discipline are unaffected. */
  lemma {:induction false} RetagKeepsNames<A>(s: seq<Named<A>>, id: Id, info: A, name: string, next: Id)
    ensures |Retag(s, id, info)| == |s|
    ensures forall i :: 0 <= i < |s| ==>
      Retag(s, id, info)[i].name == s[i].name && Retag(s, id, info)[i].id == s[i].id
    ensures FirstId(Retag(s, id, info), name) == FirstId(s, name)
    ensures WellIdentified(s, next) ==> WellIdentified(Retag(s, id, info), next)
  {
    if s != [] {
      RetagKeepsNames(s[1..], id, info, name, next);
      var t := Retag(s, id, info);
      assert t[1..] == Retag(s[1..], id, info);
      forall i | 0 <= i < |s|
        ensures t[i].name == s[i].name && t[i].id == s[i].id
      {
        if i > 0 { assert t[i] == t[1..][i - 1]; }
      }
    }
  }

  /** Retagging keeps the lookup of every name. */
  lemma RetagKeepsLookups<A>(s: seq<Named<A>>, id: Id, info: A)
    ensures SameKeys(s, Retag(s, id, info))
    ensures forall name :: FirstId(Retag(s, id, info), name) == FirstId(s, name)
  {
    forall name ensures FirstId(Retag(s, id, info), name) == FirstId(s, name) {
      RetagKeepsNames(s, id, info, name, 0);
    }
    RetagKeepsNames(s, id, info, "", 0);
  }

  /** Retagging the id of the first record named `name` makes the lookup find that record with the new details. */
  lemma {:induction false} RetagFirstNamed<A>(s: seq<Named<A>>, name: string, info: A)
    requires FirstNamed(s, name).Some?
    ensures FirstNamed(Retag(s, FirstNamed(s, name).value.id, info), name)
      == Some(FirstNamed(s, name).value.(info := info))
  {
    if s[0].name != name {
      var id := FirstNamed(s, name).value.id;
      RetagFirstNamed(s[1..], name, info);
      assert Retag(s, id, info)[1..] == Retag(s[1..], id, info);
    }
  }

  /** A record with id `id` is listed exactly when `InfoOf` finds one. */
  lemma {:induction false} InfoOfPresent<A>(s: seq<Named<A>>, id: Id)
    ensures InfoOf(s, id).Some? <==> exists i :: 0 <= i < |s| && s[i].id == id
  {
    if s != [] && s[0].id != id {
      InfoOfPresent(s[1..], id);
      if exists i :: 0 <= i < |s| && s[i].id == id {
        var i :| 0 <= i < |s| && s[i].id == id;
        assert s[1..][i - 1].id == id;
      }
      if exists j :: 0 <= j < |s[1..]| && s[1..][j].id == id {
        var j :| 0 <= j < |s[1..]| && s[1..][j].id == id;
        assert s[j + 1].id == id;
      }
    }
  }

  /** Retagging a listed id makes it report the new info. */
  lemma RetagPresent<A>(s: seq<Named<A>>, id: Id, x: A)
    requires InfoOf(s, id).Some?
    ensures InfoOf(Retag(s, id, x), id) == Some(x)
  {
    InfoOfPresent(s, id);
    RetagInfo(s, id, x, x);
  }

  /** Retagging the id of a freshly appended record touches only that record. */
  lemma {:induction false} RetagAppended<A>(s: seq<Named<A>>, r: Named<A>, x: A)
    requires forall i :: 0 <= i < |s| ==> s[i].id != r.id
    ensures Retag(s + [r], r.id, x) == s + [r.(info := x)]
    ensures InfoOf(s + [r], r.id) == Some(r.info)
  {
    if s == [] {
      assert [r][1..] == [];
    } else {
      assert (s + [r])[1..] == s[1..] + [r];
      RetagAppended(s[1..], r, x);
    }
  }

  /** After a retag the record with that id reports the new info, and a later retag overrides an earlier one. */
  lemma {:induction false} RetagInfo<A>(s: seq<Named<A>>, id: Id, x: A, y: A)
    requires exists i :: 0 <= i < |s| && s[i].id == id
    ensures InfoOf(Retag(s, id, x), id) == Some(x)
    ensures Retag(Retag(s, id, x), id, y) == Retag(s, id, y)
  {
    if s[0].id != id {
      var i :| 0 <= i < |s| && s[i].id == id;
      assert s[1..][i - 1].id == id;
      RetagInfo(s[1..], id, x, y);
    } else {
      RetagTwice(s[1..], id, x, y);
    }
  }

  lemma {:induction false} RetagTwice<A>(s: seq<Named<A>>, id: Id, x: A, y: A)
    ensures Retag(Retag(s, id, x), id, y) == Retag(s, id, y)
  {
    if s != [] {
      RetagTwice(s[1..], id, x, y);
      assert Retag(s, id, x)[1..] == Retag(s[1..], id, x);
    }
  }

  /** With distinct ids, a record's own id reports that record's info. */
  lemma {:induction false} InfoOfMember<A>(s: seq<Named<A>>, i: nat, next: Id)
    requires WellIdentified(s, next) && i < |s|
    ensures InfoOf(s, s[i].id) == Some(s[i].info)
  {
    if i > 0 {
      assert WellIdentified(s[1..], next);
      assert s[1..][i - 1] == s[i];
      InfoOfMember(s[1..], i - 1, next);
    }
  }

  /** A record appended with the next id keeps the ids distinct and below the (bumped) next id. */
  lemma AppendFresh<A>(s: seq<Named<A>>, r: Named<A>, next: Id)
    requires r.id == next
    ensures WellIdentified(s, next) ==> WellIdentified(s + [r], next + 1)
  {
  }

  /** The decimal text of an id, as the source splices it into strings. */
  function IdText(id: Id): string {
    if id < 10 then [Digit(id)] else IdText(id / 10) + [Digit(id % 10)]
  }

  /** The text of an id is a non-empty run of decimal digits. */
  lemma {:induction false} IdTextDigits(id: Id)
    ensures |IdText(id)| > 0
    ensures forall k :: 0 <= k < |IdText(id)| ==> '0' <= IdText(id)[k] <= '9'
  {
    if id >= 10 {
      IdTextDigits(id / 10);
      var t := IdText(id / 10);
      forall k | 0 <= k < |IdText(id)| ensures '0' <= IdText(id)[k] <= '9' {
        if k < |t| { assert IdText(id)[k] == t[k]; }
      }
    }
  }

  function Digit(d: nat): char
    requires d < 10
  {
    "0123456789"[d]
  }
}
