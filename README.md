# Hydra::LDAP group service, modelled in Dafny

Hydra::LDAP is a thin facade over an LDAP connection. It names groups
(`cn=<code>,<group_base>`), refuses to create a group without members or
without an owner, adds and removes members in one batched modify request,
memoises group lookups in a process-wide cache, and answers existence and
uniqueness questions from the number of hits of a search.

The model has three modules:

- `Wrappers` (`wrappers.dfy`): `Option` and `Result`.
- `Directory` (`directory.dfy`): the vocabulary of the directory server.
  Filters are opaque values compared by equality. A search result is a
  sequence of `Entry`. Ruby values in attribute hashes are `Value`, with
  Ruby truthiness (only `nil` and `false` are false, so an empty member list
  still passes the member check). The server is an `Oracle`, a function from
  (base, filter, requested attributes) to entries. The answer to a write
  request is a `Reply`: the boolean the client library returns, and the
  oracle that answers searches afterwards.
- `HydraLdap` (`hydra_ldap.dfy`): the service. Group naming and validation,
  the membership batch, and the cache operations are functions with lemmas.
  The module-level state of the Ruby module (configuration, connection,
  `@cache`) is the class `GroupService`. Its fields are the configuration,
  the directory oracle, the cache (`map<Key, Option<seq<Entry>>>`) and a log
  of every request sent to the server. Its methods update them in place.

The cache has two kinds of key, as in the source. `find_group` reads and
writes the tuple `[group_code, filter, attributes]` (`Tuple`).
`invalidate_cache` writes `nil` under the bare group code (`Code`). These
keys never coincide, so invalidation never removes anything a lookup reads.
The model keeps this behaviour as written. `InvalidateSparesLookups`,
`StaleAfterInvalidate` and `StaleLookupAfterAddUsers` prove that a lookup
cached before `add_users_to_group` is still returned afterwards, with no
search, whatever the directory now holds. So a membership change does not
clear the lookups cached for that group (`StaleLookupAfterAddUsers`).

The loop that builds the operations list appears twice in the source, once
in `add_users_to_group` and once in `remove_users_from_group`. The model
writes it once, as `CollectOps`, which both methods call through
`ModifyMembers`, with the operation kind as a parameter.

## Model

| member | source | states |
|---|---|---|
| HydraLdap.Dn | lib/hydra-ldap.rb:47-49 | the group name is `cn=` + code + `,` + group base, and the code reads back out of it unchanged |
| HydraLdap.CodeOfDnRoundTrip | lib/hydra-ldap.rb:47-49 | every name of the form `cn=<x>,<group base>` is the name of group `x` |
| HydraLdap.DnInjective | lib/hydra-ldap.rb:47-49 | distinct group codes give distinct distinguished names |
| HydraLdap.GroupAttributesError | lib/hydra-ldap.rb:60-62 | NoUsersError exactly when `:uniquemember` is not truthy, whatever `:owner` is; MissingOwnerError exactly when members are truthy and `:owner` is not; no error exactly when both are truthy |
| HydraLdap.GroupService.CreateGroup | lib/hydra-ldap.rb:60-64 | on a validation error, raises it and sends nothing; otherwise sends exactly one add, to `Dn(code)`, with the attributes unchanged, and returns the server's boolean; the cache is untouched |
| HydraLdap.GroupService.DeleteGroup | lib/hydra-ldap.rb:66-68 | sends exactly one delete of `Dn(code)`, with no existence check, and returns the server's boolean |
| HydraLdap.Uid | lib/hydra-ldap.rb:117 | a user written as `uid=<user>` reads back as that user |
| HydraLdap.MembershipOps | lib/hydra-ldap.rb:115-118 | the batch has as many operations as there are users, in the same order; operation i is `[kind, group_member, "uid=" + users[i]]` |
| HydraLdap.MembershipOpsNameUsers | lib/hydra-ldap.rb:113-128 | operation i of a batch names exactly user i |
| HydraLdap.CollectOps | lib/hydra-ldap.rb:115-118 | the append loop builds exactly the batch `MembershipOps(kind, group_member, users)` |
| HydraLdap.GroupService.ModifyMembers | lib/hydra-ldap.rb:113-128 | invalidates the bare code key, then sends one modify of `Dn(code)` carrying the whole batch, and returns the server's boolean |
| HydraLdap.GroupService.AddUsersToGroup | lib/hydra-ldap.rb:113-120 | as ModifyMembers, with one `:add` per user |
| HydraLdap.GroupService.RemoveUsersFromGroup | lib/hydra-ldap.rb:122-129 | as ModifyMembers, with one `:delete` per user |
| HydraLdap.Invalidated | lib/hydra-ldap.rb:131-134 | after invalidation the bare code key reads as nil; every other key, tuple keys included, reads as before |
| HydraLdap.InvalidateSparesLookups | lib/hydra-ldap.rb:131-134 | invalidating a code leaves the entry of every lookup tuple for that code as it was |
| HydraLdap.InvalidatePreservesWellFormed | lib/hydra-ldap.rb:131-134 | invalidation keeps the cache holding only nil under codes and non-empty results under tuples |
| HydraLdap.GroupService.InvalidateCache | lib/hydra-ldap.rb:131-134 | the cache becomes `Invalidated(old cache, code)`; nothing else changes |
| HydraLdap.GroupService.constructor | lib/hydra-ldap.rb:141 | the service starts with an empty cache and an empty request log |
| HydraLdap.FindStep | lib/hydra-ldap.rb:140-147 | a lookup searches once, under the group base with the requested attributes, exactly when its tuple holds no result; a result from the cache is the one stored under the tuple; when it raises, the error is GroupNotFound(code) and the cache is unchanged; no key other than its own tuple changes |
| HydraLdap.FindHitReturnsCached | lib/hydra-ldap.rb:141-142 | with a cached result for the exact tuple, a lookup returns it unchanged, sends no search, does not call the block and leaves the cache as it was |
| HydraLdap.FindMissEmptyRaises | lib/hydra-ldap.rb:143-144 | on a miss whose search finds nothing, a lookup raises GroupNotFound after exactly one search, and the cache is unchanged |
| HydraLdap.FindMissStores | lib/hydra-ldap.rb:145-146 | on a miss whose search finds entries, the result is stored under the exact tuple; the lookup returns the block's value, or nil without a block |
| HydraLdap.FindTwiceSearchesOnce | lib/hydra-ldap.rb:140-147 | after a successful lookup, an identical one sends no search and returns the first one's result even if the directory has changed |
| HydraLdap.FindPreservesWellFormed | lib/hydra-ldap.rb:140-147 | a lookup never stores an empty result |
| HydraLdap.StaleAfterInvalidate | lib/hydra-ldap.rb:113-147 | a result cached for a tuple is still returned, with no search, after its group's code is invalidated |
| HydraLdap.GroupService.FindGroup | lib/hydra-ldap.rb:140-147 | the result, the new cache and the searches sent are those of `FindStep` on the old cache and the current directory; a result answered from the cache is never empty |
| HydraLdap.GroupService.TitleOfGroup | lib/hydra-ldap.rb:87-93 | a lookup whose attributes default to `['description']` |
| HydraLdap.GroupService.UsersForGroup | lib/hydra-ldap.rb:96-102 | a lookup whose attributes default to `['member']` |
| HydraLdap.GroupService.OwnerForGroup | lib/hydra-ldap.rb:105-111 | a lookup whose attributes default to `['owner']` |
| HydraLdap.StaleLookupAfterAddUsers | lib/hydra-ldap.rb:113-147 | a lookup cached before `add_users_to_group` returns the pre-add result afterwards, whatever the server now answers |
| HydraLdap.GroupService.DoesUserExist | lib/hydra-ldap.rb:155-158 | sends one search under the tree base; true iff it has at least one hit |
| HydraLdap.GroupService.IsUserUnique | lib/hydra-ldap.rb:161-164 | sends one search under the tree base; true iff it has exactly one hit |
| HydraLdap.GroupService.DoesGroupExist | lib/hydra-ldap.rb:167-170 | sends one search under the group base; true iff it has exactly one hit |
| HydraLdap.FoundEntriesNonEmpty | lib/hydra-ldap.rb:142-145 | in a cache that `find_group` and `invalidate_cache` have built, a result read from the cache has at least one entry, and a successful lookup leaves a non-empty result under its tuple |
| HydraLdap.OneHitVersusAnyHit | lib/hydra-ldap.rb:155-170 | uniqueness implies existence, and the two differ exactly on two or more hits, so `does_group_exist?` is false for a duplicated group |

## Left out

- Configuration loading (`ldap_config`, `ldap_connection_config`, `group_base`, `treebase`): this is file, ERB and YAML I/O. The tree base, group base and membership attribute are a `Config` value held by the service. The rule that credentials and `:base` go into the connection settings only when both username and password are set has no counterpart in the model.
- `connection`: the client library and its semantics are not part of this model. Searches are answered by the `Oracle`. Writes are recorded in the request log, and their effect comes from a `Reply` supplied by the caller. Errors raised by the client (network, authentication, malformed filter, a search returning nil) are not modelled.
- `groups_for_user`, `groups_owned_by_user`, `get_user`: single pass-through searches with nothing to state beyond the search they send.
- Concurrency: the unsynchronised sharing of `@cache` and the connection between threads is not modelled; every method runs alone.
- Filter internals: a filter is modelled by its text, and `==` on `Filter` stands for Ruby's `eql?`/`hash` on the filter object, which decide whether two cache keys are the same. That behaviour is defined in the client library, which is not part of this model.
- Attribute keys: `create_group` reads `attributes[:uniquemember]` and `attributes[:owner]` with symbol keys. The keys of the model's `map<string, Value>` stand for those symbols; with a plain Hash, a string key `"uniquemember"` would not be found by the source (a `HashWithIndifferentAccess` from the caller would find it) and has no counterpart in the model.
- Aliasing of cached results: on a hit, `find_group` returns the very Array stored in `@cache`, so a caller that changes it changes the cache. The model returns results as values, so this aliasing is not captured.
- Blocks: a block is a total function from the search result to a `Value`; blocks with side effects or that raise are not modelled.
- The engine `require` at the end of the file.
