/**
 * The group service of Hydra::LDAP: group naming and validation, membership
 * batching, the process-wide result cache, and the hit-count predicates.
 */
module HydraLdap {
  import opened Wrappers
  import opened Directory

  /** The configured tree base, group base and membership attribute. */
  datatype Config = Config(base: string, groupBase: string, groupMember: string)

  /** The errors this layer raises itself. */
  datatype Error = NoUsersError | MissingOwnerError | GroupNotFound(code: string)

  // ---------------------------------------------------------------- naming

  /**
   * The distinguished name of the group with the given code; the code reads
   * back out of it unchanged.
   */
  function Dn(groupBase: string, code: string): (dn: string)
    ensures CodeOfDn(groupBase, dn) == Some(code)
  {
    var dn, tail := "cn=" + code + "," + groupBase, "," + groupBase;
    assert dn == "cn=" + code + tail;
    assert dn[..3] == "cn=";
    assert dn[|dn| - |tail|..] == tail;
    assert dn[3..|dn| - |tail|] == code;
    dn
  }

  /** Reads the group code back out of a distinguished name under `groupBase`. */
  function CodeOfDn(groupBase: string, dn: string): Option<string>
  {
    var tail := "," + groupBase;
    if |dn| >= 3 + |tail| && dn[..3] == "cn=" && dn[|dn| - |tail|..] == tail
    then Some(dn[3..|dn| - |tail|])
    else None
  }

  /** Every name that reads back as a code is exactly that code's group name. */
  lemma CodeOfDnRoundTrip(groupBase: string, dn: string)
    requires CodeOfDn(groupBase, dn).Some?
    ensures Dn(groupBase, CodeOfDn(groupBase, dn).value) == dn
  {
    var tail := "," + groupBase;
    var code := dn[3..|dn| - |tail|];
    assert dn == dn[..3] + code + dn[|dn| - |tail|..];
  }

  /** Distinct codes name distinct groups. */
  lemma DnInjective(groupBase: string, code1: string, code2: string)
    requires Dn(groupBase, code1) == Dn(groupBase, code2)
    ensures code1 == code2
  {
  }

  // ---------------------------------------------------------- group creation

  const Members := "uniquemember"
  const Owner := "owner"

  /**
   * The check `create_group` makes before any request: members first, then
   * the owner. None when the group may be persisted.
   */
  function GroupAttributesError(attributes: map<string, Value>): (r: Option<Error>)
    ensures r == Some(NoUsersError) <==> !Truthy(Lookup(attributes, Members))
    ensures r == Some(MissingOwnerError) <==>
      Truthy(Lookup(attributes, Members)) && !Truthy(Lookup(attributes, Owner))
    ensures r == None <==>
      Truthy(Lookup(attributes, Members)) && Truthy(Lookup(attributes, Owner))
  {
    if !Truthy(Lookup(attributes, Members)) then Some(NoUsersError)
    else if !Truthy(Lookup(attributes, Owner)) then Some(MissingOwnerError)
    else None
  }

  // ------------------------------------------------------ membership batches

  /** A user as the value of a membership attribute; the user reads back out of it. */
  function Uid(user: string): (v: string)
    ensures UserOfUid(v) == Some(user)
  {
    var v := "uid=" + user;
    assert v[..4] == "uid=";
    assert v[4..] == user;
    v
  }

  /** Reads the user back out of a membership value, when it has the `uid=` prefix. */
  function UserOfUid(v: string): Option<string>
  {
    if |v| >= 4 && v[..4] == "uid=" then Some(v[4..]) else None
  }

  /**
   * The operations for a batch, appended in the order of `users`: one per
   * user, in order, each naming that user.
   */
  function MembershipOps(kind: OpKind, member: string, users: seq<string>): (ops: seq<Op>)
    ensures |ops| == |users|
    ensures forall i :: 0 <= i < |users| ==> ops[i] == Op(kind, member, Uid(users[i]))
  {
    if users == [] then []
    else MembershipOps(kind, member, users[..|users| - 1]) + [Op(kind, member, Uid(users[|users| - 1]))]
  }

  /** The users of a batch can be read back from its operations. */
  lemma MembershipOpsNameUsers(kind: OpKind, member: string, users: seq<string>, i: nat)
    requires i < |users|
    ensures i < |MembershipOps(kind, member, users)|
    ensures UserOfUid(MembershipOps(kind, member, users)[i].value) == Some(users[i])
  {
  }

  /** The loop of `add_users_to_group` and `remove_users_from_group`. */
  method CollectOps(kind: OpKind, member: string, users: seq<string>) returns (ops: seq<Op>)
    ensures ops == MembershipOps(kind, member, users)
  {
    ops := [];
    for i := 0 to |users|
      invariant ops == MembershipOps(kind, member, users[..i])
    {
      assert users[..i + 1][..i] == users[..i];
      ops := ops + [Op(kind, member, Uid(users[i]))];
    }
    assert users[..|users|] == users;
  }

  // ------------------------------------------------------------------ cache

  /** A cache key: a bare group code (written by invalidation) or a lookup tuple. */
  datatype Key = Code(code: string) | Tuple(code: string, filter: Filter, attributes: seq<string>)

  /** The process-wide cache; `None` is a stored nil. */
  type Cache = map<Key, Option<seq<Entry>>>

  /**
   * `@cache[key]` read as a truth value: the stored result when the key holds
   * one, nothing when the key is absent or holds nil.
   */
  function Cached(cache: Cache, key: Key): Option<seq<Entry>>
  {
    if key in cache then cache[key] else None
  }

  /** What the cache can ever hold: nil under bare codes, non-empty results under tuples. */
  ghost predicate WellFormed(cache: Cache)
  {
    forall k :: k in cache ==>
      if k.Code? then cache[k] == None else cache[k].Some? && cache[k].value != []
  }

  /** `invalidate_cache`: stores nil under the bare group code. */
  function Invalidated(cache: Cache, code: string): (c: Cache)
    ensures Cached(c, Code(code)) == None
    ensures forall k :: k != Code(code) ==> Cached(c, k) == Cached(cache, k)
    ensures c.Keys == cache.Keys + {Code(code)}
  {
    cache[Code(code) := None]
  }

  /** Invalidation never touches a key that a lookup reads. */
  lemma InvalidateSparesLookups(cache: Cache, code: string, filter: Filter, attributes: seq<string>)
    ensures Cached(Invalidated(cache, code), Tuple(code, filter, attributes))
         == Cached(cache, Tuple(code, filter, attributes))
  {
  }

  lemma InvalidatePreservesWellFormed(cache: Cache, code: string)
    requires WellFormed(cache)
    ensures WellFormed(Invalidated(cache, code))
  {
  }

  // ------------------------------------------------------------ find_group

  /** What a lookup returns: a cached result, or the block's value (nil without a block). */
  datatype Answer = Entries(hits: seq<Entry>) | Returned(value: Value)

  /** The outcome of one lookup: its result, the new cache and the searches it sent. */
  datatype Found = Found(result: Result<Answer, Error>, cache: Cache, searches: seq<Request>)

  /**
   * `find_group` as a function of the cache and the directory. It searches
   * exactly when its tuple holds no result, changes no key but its own
   * tuple, and changes nothing when it raises.
   */
  function FindStep(cache: Cache, directory: Oracle, groupBase: string, code: string,
                    filter: Filter, attributes: seq<string>, block: Option<seq<Entry> -> Value>): (f: Found)
    ensures f.searches == [] <==> Cached(cache, Tuple(code, filter, attributes)).Some?
    ensures f.searches != [] ==> f.searches == [Search(groupBase, filter, Some(attributes))]
    ensures f.result.Success? && f.result.value.Entries? ==>
      Cached(cache, Tuple(code, filter, attributes)) == Some(f.result.value.hits)
    ensures f.result.Failure? ==> f.cache == cache && f.result.error == GroupNotFound(code)
    ensures forall k :: k != Tuple(code, filter, attributes) ==> Cached(f.cache, k) == Cached(cache, k)
  {
    var key := Tuple(code, filter, attributes);
    if Cached(cache, key).Some? then
      Found(Success(Entries(Cached(cache, key).value)), cache, [])
    else
      var hits := directory(groupBase, filter, Some(attributes));
      var search := [Search(groupBase, filter, Some(attributes))];
      if hits == [] then
        Found(Failure(GroupNotFound(code)), cache, search)
      else
        var answer := if block.Some? then block.value(hits) else Nil;
        Found(Success(Returned(answer)), cache[key := Some(hits)], search)
  }

  /** A cached tuple is returned unchanged, with no search and no call of the block. */
  lemma FindHitReturnsCached(cache: Cache, directory: Oracle, groupBase: string, code: string,
                             filter: Filter, attributes: seq<string>, block: Option<seq<Entry> -> Value>)
    requires Cached(cache, Tuple(code, filter, attributes)).Some?
    ensures var step := FindStep(cache, directory, groupBase, code, filter, attributes, block);
      step == Found(Success(Entries(Cached(cache, Tuple(code, filter, attributes)).value)), cache, [])
  {
  }

  /** A miss whose search finds nothing raises GroupNotFound and caches nothing. */
  lemma FindMissEmptyRaises(cache: Cache, directory: Oracle, groupBase: string, code: string,
                            filter: Filter, attributes: seq<string>, block: Option<seq<Entry> -> Value>)
    requires Cached(cache, Tuple(code, filter, attributes)).None?
    requires directory(groupBase, filter, Some(attributes)) == []
    ensures var step := FindStep(cache, directory, groupBase, code, filter, attributes, block);
      step.result == Failure(GroupNotFound(code)) && step.cache == cache &&
      step.searches == [Search(groupBase, filter, Some(attributes))]
  {
  }

  /**
   * A miss whose search finds entries stores them under the exact tuple and
   * returns the block's value, or nil without a block.
   */
  lemma FindMissStores(cache: Cache, directory: Oracle, groupBase: string, code: string,
                       filter: Filter, attributes: seq<string>, block: Option<seq<Entry> -> Value>)
    requires Cached(cache, Tuple(code, filter, attributes)).None?
    requires directory(groupBase, filter, Some(attributes)) != []
    ensures var hits := directory(groupBase, filter, Some(attributes));
      var step := FindStep(cache, directory, groupBase, code, filter, attributes, block);
      && step.cache == cache[Tuple(code, filter, attributes) := Some(hits)]
      && step.searches == [Search(groupBase, filter, Some(attributes))]
      && (block.Some? ==> step.result == Success(Returned(block.value(hits))))
      && (block.None? ==> step.result == Success(Returned(Nil)))
  {
  }

  /**
   * A second identical lookup after a successful one sends no search and
   * returns the first lookup's search result, whatever the directory now says.
   */
  lemma FindTwiceSearchesOnce(cache: Cache, directory: Oracle, later: Oracle, groupBase: string, code: string,
                              filter: Filter, attributes: seq<string>, block: Option<seq<Entry> -> Value>)
    requires FindStep(cache, directory, groupBase, code, filter, attributes, block).result.Success?
    ensures var first := FindStep(cache, directory, groupBase, code, filter, attributes, block);
      var second := FindStep(first.cache, later, groupBase, code, filter, attributes, block);
      && second.searches == []
      && second.cache == first.cache
      && second.result == Success(Entries(
           if first.searches == [] then Cached(cache, Tuple(code, filter, attributes)).value
           else directory(groupBase, filter, Some(attributes))))
  {
  }

  /** A lookup keeps the cache well formed: it never stores an empty result. */
  lemma FindPreservesWellFormed(cache: Cache, directory: Oracle, groupBase: string, code: string,
                                filter: Filter, attributes: seq<string>, block: Option<seq<Entry> -> Value>)
    requires WellFormed(cache)
    ensures WellFormed(FindStep(cache, directory, groupBase, code, filter, attributes, block).cache)
  {
  }

  /**
   * Invalidating a group's code does not stop a lookup from returning the
   * result cached for it before, even when the directory has changed since.
   */
  lemma StaleAfterInvalidate(cache: Cache, directory: Oracle, groupBase: string, code: string,
                             filter: Filter, attributes: seq<string>, block: Option<seq<Entry> -> Value>)
    requires Cached(cache, Tuple(code, filter, attributes)).Some?
    ensures var step := FindStep(Invalidated(cache, code), directory, groupBase, code, filter, attributes, block);
      step.result == Success(Entries(Cached(cache, Tuple(code, filter, attributes)).value)) &&
      step.searches == []
  {
    InvalidateSparesLookups(cache, code, filter, attributes);
  }

  // ------------------------------------------------------------ hit counts

  /** `!hits.empty?` */
  predicate AnyHit(hits: seq<Entry>)
  {
    hits != []
  }

  /** `hits.count == 1` */
  predicate OneHit(hits: seq<Entry>)
  {
    |hits| == 1
  }

  /**
   * In a well-formed cache a lookup that answers from the cache answers with
   * at least one entry, and a successful search leaves a non-empty result
   * cached under its tuple.
   */
  lemma FoundEntriesNonEmpty(cache: Cache, directory: Oracle, groupBase: string, code: string,
                             filter: Filter, attributes: seq<string>, block: Option<seq<Entry> -> Value>)
    requires WellFormed(cache)
    ensures var step := FindStep(cache, directory, groupBase, code, filter, attributes, block);
      && (step.result.Success? && step.result.value.Entries? ==> AnyHit(step.result.value.hits))
      && (step.result.Success? ==> AnyHit(Cached(step.cache, Tuple(code, filter, attributes)).value))
  {
  }

  /** Uniqueness is stronger than existence: it is false for two or more hits. */
  lemma OneHitVersusAnyHit(hits: seq<Entry>)
    ensures OneHit(hits) ==> AnyHit(hits)
    ensures AnyHit(hits) && !OneHit(hits) <==> |hits| >= 2
  {
  }

  // ---------------------------------------------------------------- service

  const DefaultTitleAttributes: seq<string> := ["description"]
  const DefaultUsersAttributes: seq<string> := ["member"]
  const DefaultOwnerAttributes: seq<string> := ["owner"]

  /**
   * The module-level state of Hydra::LDAP: its configuration, the directory
   * behind its connection, the result cache, and the log of requests sent.
   */
  class GroupService {
    const config: Config
    var directory: Oracle
    var cache: Cache
    var log: seq<Request>

    ghost predicate Valid()
      reads this
    {
      WellFormed(cache)
    }

    constructor (config: Config, directory: Oracle)
      ensures Valid()
      ensures this.config == config && this.directory == directory
      ensures cache == map[] && log == []
    {
      this.config := config;
      this.directory := directory;
      cache := map[];
      log := [];
    }

    /** `create_group`: validates, then adds the group under its name. */
    method CreateGroup(code: string, attributes: map<string, Value>, reply: Reply) returns (r: Result<bool, Error>)
      requires Valid()
      modifies this
      ensures Valid() && cache == old(cache)
      ensures GroupAttributesError(attributes).Some? ==>
        r == Failure(GroupAttributesError(attributes).value) &&
        log == old(log) && directory == old(directory)
      ensures GroupAttributesError(attributes).None? ==>
        r == Success(reply.ok) &&
        log == old(log) + [Add(Dn(config.groupBase, code), attributes)] &&
        directory == reply.next
    {
      if !Truthy(Lookup(attributes, Members)) {
        return Failure(NoUsersError);
      }
      if !Truthy(Lookup(attributes, Owner)) {
        return Failure(MissingOwnerError);
      }
      log := log + [Add(Dn(config.groupBase, code), attributes)];
      directory := reply.next;
      r := Success(reply.ok);
    }

    /** `delete_group`: deletes the group's name, with no existence check. */
    method DeleteGroup(code: string, reply: Reply) returns (ok: bool)
      requires Valid()
      modifies this
      ensures Valid() && cache == old(cache)
      ensures ok == reply.ok
      ensures log == old(log) + [Delete(Dn(config.groupBase, code))]
      ensures directory == reply.next
    {
      log := log + [Delete(Dn(config.groupBase, code))];
      directory := reply.next;
      ok := reply.ok;
    }

    /** `invalidate_cache`: stores nil under the bare group code. */
    method InvalidateCache(code: string)
      requires Valid()
      modifies this`cache
      ensures Valid()
      ensures cache == Invalidated(old(cache), code)
    {
      InvalidatePreservesWellFormed(cache, code);
      cache := cache[Code(code) := None];
    }

    /** `add_users_to_group` and `remove_users_from_group`: invalidate, then one modify. */
    method ModifyMembers(kind: OpKind, code: string, users: seq<string>, reply: Reply) returns (ok: bool)
      requires Valid()
      modifies this
      ensures Valid()
      ensures cache == Invalidated(old(cache), code)
      ensures ok == reply.ok
      ensures log == old(log) + [Modify(Dn(config.groupBase, code), MembershipOps(kind, config.groupMember, users))]
      ensures directory == reply.next
    {
      InvalidateCache(code);
      var ops := CollectOps(kind, config.groupMember, users);
      log := log + [Modify(Dn(config.groupBase, code), ops)];
      directory := reply.next;
      ok := reply.ok;
    }

    /** `add_users_to_group`: one `add` of `uid=<user>` per user, in order. */
    method AddUsersToGroup(code: string, users: seq<string>, reply: Reply) returns (ok: bool)
      requires Valid()
      modifies this
      ensures Valid()
      ensures cache == Invalidated(old(cache), code)
      ensures ok == reply.ok
      ensures log == old(log) + [Modify(Dn(config.groupBase, code), MembershipOps(AddValue, config.groupMember, users))]
      ensures directory == reply.next
    {
      ok := ModifyMembers(AddValue, code, users, reply);
    }

    /** `remove_users_from_group`: one `delete` of `uid=<user>` per user, in order. */
    method RemoveUsersFromGroup(code: string, users: seq<string>, reply: Reply) returns (ok: bool)
      requires Valid()
      modifies this
      ensures Valid()
      ensures cache == Invalidated(old(cache), code)
      ensures ok == reply.ok
      ensures log == old(log) + [Modify(Dn(config.groupBase, code), MembershipOps(DeleteValue, config.groupMember, users))]
      ensures directory == reply.next
    {
      ok := ModifyMembers(DeleteValue, code, users, reply);
    }

    /** `find_group`: the cached result for the exact tuple, or a search under the group base. */
    method FindGroup(code: string, filter: Filter, attributes: seq<string>, block: Option<seq<Entry> -> Value>)
      returns (r: Result<Answer, Error>)
      requires Valid()
      modifies this`cache, this`log
      ensures Valid()
      ensures var step := FindStep(old(cache), directory, config.groupBase, code, filter, attributes, block);
        r == step.result && cache == step.cache && log == old(log) + step.searches
      ensures r.Success? && r.value.Entries? ==> AnyHit(r.value.hits)
    {
      FindPreservesWellFormed(cache, directory, config.groupBase, code, filter, attributes, block);
      FoundEntriesNonEmpty(cache, directory, config.groupBase, code, filter, attributes, block);
      var key := Tuple(code, filter, attributes);
      var cached := Cached(cache, key);
      if cached.Some? {
        return Success(Entries(cached.value));
      }
      var hits := directory(config.groupBase, filter, Some(attributes));
      log := log + [Search(config.groupBase, filter, Some(attributes))];
      if hits == [] {
        return Failure(GroupNotFound(code));
      }
      cache := cache[key := Some(hits)];
      if block.Some? {
        r := Success(Returned(block.value(hits)));
      } else {
        r := Success(Returned(Nil));
      }
    }

    /** `title_of_group`: a lookup asking for the description by default. */
    method TitleOfGroup(code: string, filter: Filter, attributes: seq<string> := DefaultTitleAttributes,
                        block: Option<seq<Entry> -> Value> := None)
      returns (r: Result<Answer, Error>)
      requires Valid()
      modifies this`cache, this`log
      ensures Valid()
      ensures var step := FindStep(old(cache), directory, config.groupBase, code, filter, attributes, block);
        r == step.result && cache == step.cache && log == old(log) + step.searches
    {
      r := FindGroup(code, filter, attributes, block);
    }

    /** `users_for_group`: a lookup asking for the members by default. */
    method UsersForGroup(code: string, filter: Filter, attributes: seq<string> := DefaultUsersAttributes,
                         block: Option<seq<Entry> -> Value> := None)
      returns (r: Result<Answer, Error>)
      requires Valid()
      modifies this`cache, this`log
      ensures Valid()
      ensures var step := FindStep(old(cache), directory, config.groupBase, code, filter, attributes, block);
        r == step.result && cache == step.cache && log == old(log) + step.searches
    {
      r := FindGroup(code, filter, attributes, block);
    }

    /** `owner_for_group`: a lookup asking for the owner by default. */
    method OwnerForGroup(code: string, filter: Filter, attributes: seq<string> := DefaultOwnerAttributes,
                         block: Option<seq<Entry> -> Value> := None)
      returns (r: Result<Answer, Error>)
      requires Valid()
      modifies this`cache, this`log
      ensures Valid()
      ensures var step := FindStep(old(cache), directory, config.groupBase, code, filter, attributes, block);
        r == step.result && cache == step.cache && log == old(log) + step.searches
    {
      r := FindGroup(code, filter, attributes, block);
    }

    /** `does_user_exist?`: some entry under the tree base matches. */
    method DoesUserExist(filter: Filter) returns (b: bool)
      modifies this`log
      ensures b == AnyHit(directory(config.base, filter, None))
      ensures log == old(log) + [Search(config.base, filter, None)]
    {
      var hits := directory(config.base, filter, None);
      log := log + [Search(config.base, filter, None)];
      b := hits != [];
    }

    /** `is_user_unique?`: exactly one entry under the tree base matches. */
    method IsUserUnique(filter: Filter) returns (b: bool)
      modifies this`log
      ensures b == OneHit(directory(config.base, filter, None))
      ensures log == old(log) + [Search(config.base, filter, None)]
    {
      var hits := directory(config.base, filter, None);
      log := log + [Search(config.base, filter, None)];
      b := |hits| == 1;
    }

    /** `does_group_exist?`: exactly one entry under the group base matches. */
    method DoesGroupExist(filter: Filter) returns (b: bool)
      modifies this`log
      ensures b == OneHit(directory(config.groupBase, filter, None))
      ensures log == old(log) + [Search(config.groupBase, filter, None)]
    {
      var hits := directory(config.groupBase, filter, None);
      log := log + [Search(config.groupBase, filter, None)];
      b := |hits| == 1;
    }
  }

  /**
   * A lookup cached before `add_users_to_group` is still returned after it,
   * with no search, whatever the directory answers once the users are added.
   */
  method StaleLookupAfterAddUsers(s: GroupService, code: string, filter: Filter, attributes: seq<string>,
                                  users: seq<string>, reply: Reply)
    returns (r: Result<Answer, Error>)
    requires s.Valid()
    requires Cached(s.cache, Tuple(code, filter, attributes)).Some?
    modifies s
    ensures r == Success(Entries(Cached(old(s.cache), Tuple(code, filter, attributes)).value))
    ensures s.directory == reply.next
    ensures s.log == old(s.log) + [Modify(Dn(s.config.groupBase, code), MembershipOps(AddValue, s.config.groupMember, users))]
  {
    var _ := s.AddUsersToGroup(code, users, reply);
    StaleAfterInvalidate(old(s.cache), s.directory, s.config.groupBase, code, filter, attributes, None);
    r := s.FindGroup(code, filter, attributes, None);
  }
}
