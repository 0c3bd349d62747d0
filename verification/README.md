# SafeHarbor: a verified model of its stores, its stored text and its Redis client

SafeHarbor keeps realms, repos, images, scan configs and flags, and decides who may do what with them. This project
models, in Dafny 4.11, the parts of it where several structures must stay in step, and proves that they do, or says
exactly when they do not. `dafny verify dfyconfig.toml` checks everything.

## Parts

- Access lists (`Access`, `AccessProofs`, `ClearProofs`, `AccessRuns`, `AccessMethods`). A permission is an entry that is
  listed by its resource and by its party. The code updates entry, lists and store in separate steps; the model keeps
  the steps, and the proofs show that the store behaves like one map from (party, resource) to a mask.
- Authorization (`Authorization`, `AuthorizationProofs`) and deactivation of a realm (`Deactivation`,
  `DeactivationMethods`). The decision walks the party's list only; it is proved to be the decision that the permissions
  call for, seen from either side.
- Links of scan configs, flags, images, events and parameter values (`ScanLinks`, `ScanLinkProofs`, `ScanLinkCreation`,
  `ScanDeletion`, `ScanRemoval`, `ScanLinkRuns`, `ScanLinkMethods`) and names that must be unique (`Names`).
- Membership of users in realms (`Membership`, `MembershipMethods`) and in groups (`GroupMembership`, `GroupMethods`).
- The tree of realms, repos, dockerfiles and groups (`ResourceTree`, `ResourceTreeMethods`), and all of these on one store
  (`StoreFrames`, `StoreRuns`): over every run of all operations, failed calls included, the relations stay in step
  together.
- The cache of a client over the shared object map (`ObjectCache`).
- Stored text (`JsonTokens`, `JsonReader`, `JsonParser`, `JsonRoundTrip`, `JsonPrinter`, `StoredObjects`, `StoredText`,
  `StoredRoundTrip`, `StoredMethods`). A recursive-descent reader with token push-back is proved to undo ten printers,
  whose text is also spelled out type by type.
- The Redis client (`Replies`, `Commands`, `Arguments`, `RedisClient`, `RedisRuns`, `RedisMethods`): the Redis
  serialization protocol, version 2 (simple strings, simple errors, integers, bulk strings, arrays, and their null
  forms), the writer that predicts the length of numbers, the pool, transactions and pipelines.
- Shared helpers: `Basics`, `Decimal`, and `ObjectStore`, the objects of the store with the fields that the code updates
  in place, and the plain value (`State`) that the store has at each moment.

Each operation appears twice: as a function on values, about which the properties are proved, and as a method on
objects, proved to do what the function says. Where a property does not hold for every call, a lemma whose name ends in
`Iff` states the exact condition. A property that speaks of printed text, bytes on the wire, names or lists is stated with
the characters, the numbers and the lists themselves, and not with the function that makes them.

## What the proofs found

- `addAccess` edits a stored mask in place. If two entries share one array, both change (AddAccessOnMatrixIff).
- `deleteAccess` removes ids by their position in a copy. With two entries for one pair it removes the wrong id
  (DeleteAccessLinkedIff); `dbCreateACLEntry` is the only operation that can make a second entry (CreateEntryConsistentIff).
- The comment on `authorized` says that the resource's lists are used; the code uses the party's. Both give the same
  answer while the two indexes are in step (AuthorizedFromResourceSide).
- `addDockerImage` with an unknown image, and `dbCreateScanConfig` with an unknown flag, leave a one-sided link behind
  (AddDockerImageIff, CreateScanConfigMeans). So does `dbCreateScanEvent` with an unknown user (CreateScanEventMeans).
  These, and a config created with parameter values that are dead or another's, are all the calls that break a link
  (LinkStepIff); no call, failed or not, breaks repo lists or access lists (LinkStepSafe).
- A user whose move fails on a name clash ends in no realm (MoveUserMeans); a user whose creation fails on a name clash
  stays in the store, names the realm and keeps its login name taken (CreateUserMeans, DbCreateUser).
- A scan event whose config has been deleted can no longer be deleted (DeleteScanEventMeans). Its parameter values are
  never in the way: every value that an event or a config lists is live and listed once. Nothing in the program calls
  `deleteEvent`.
- `removeUser` takes a user off the group's list and leaves the group on the user's list, which is the one that
  `authorized` reads: it changes no answer (RemovalChangesNoAnswer), and so leaves the user an access that it should end
  exactly when only that group gives it (RemovalLeavesAccessIff). Adding the user again reports an error and puts the
  lists back in step (AddMemberMeans).
- `addUser` takes the user off no other list, so the realm lists stay in step exactly when no other realm lists the user
  (AddUserIff).
- A lookup by login name caches the user under a key that is not its id (GetUserCoherentIff), and nothing takes the user
  out again: a deleted user is found by login name exactly when it was found by it before, in the same transaction
  (DeletedUserFoundIff).
- Printers escape nothing, so a quote in a text changes what is read back (StringReadIff).
- `numLen` overflows from 10^18 on (NumLenIff), and for some numbers it never ends (LargestNeverEnds). A command with such a
  number is not understood by the server (UnderstoodIff): the largest unsigned number is announced with two digits instead
  of twenty, and the rest of it is read as a second command (LargestNumberSplits). The pool stays fit for use exactly when
  no such command is sent (ExecuteKeepsPoolIff); after one, the next command is answered with the reply to the leftover
  (OversizedPoisonsPool).
- A byte slice cannot be passed through `packArgs` (ByteSliceRejectedIff).

## Assumptions

- `utilities.RemoveFrom`, `RemoveAt` and `AddUniquely` are not part of this model beyond their names: they remove the
  first occurrence, remove a position, and append unless present, and return a list without writing into the old one.
- An object id is the value of the counter; its text is the decimal text, and different values have different texts
  (Decimal.TextInjective). A nil map entry is an absent one. Permission masks have five fields.
- `rest.DecodeStringFromJSON` is the identity on text without quote and escape character, and leaves a quote that follows
  such text; the time package reads the text it prints, and that text has no quote. Both are parameters (`Env`,
  `TimeText`, `Faithful`).
- Callers pass pointers to live objects to the methods that take objects; ids may be anything. `deleteScanConfig`,
  `deleteFlag` and `deleteDockerImage` are called for the object's own repo, as the handlers do.
- The network and the server are parameters of each step of the Redis client (`Net`, `Try`). The server reads the bytes it
  is sent as arrays of bulk strings. It answers the commands it finds in order and once each, so SUBSCRIBE to several
  channels, MONITOR and the like are not covered; it opens MULTI unless it answers with an error, and EXEC and DISCARD end
  it. What it does with bytes that are not the command that was meant is left open. The client sets no deadlines, so a
  write or read that fails is the end of its connection.
- A scan event has one actual parameter value for each parameter name; the values get the next ids, and the event the
  one behind them.
- Error texts are not modelled; a failed call is a flag, and what it leaves behind is modelled. A run-time error of the
  program counts as a failure.

## Model

| member | source | states |
|---|---|---|
| AccessProofs.FindEntryExact | src/safeharbor/server/InMemory.go:941-954 | with consistent lists the search by resource finds the party's only entry on it, or none, and never fails |
| AccessProofs.FindEntryFirst | src/safeharbor/server/InMemory.go:941-954 | for any list, whatever it names: the search finds the first live entry on the resource; when there is none it fails exactly when the last id names no entry |
| AccessMethods.GetACLEntryForResourceId | src/safeharbor/server/InMemory.go:941-954 | the loop returns the entry, none, or the error of the last lookup that failed |
| AccessMethods.NewInMemACLEntry | src/safeharbor/server/InMemory.go:1538-1552 | a new entry under the next id, holding the caller's mask array, and nothing else changed |
| AccessMethods.DbCreateACLEntry | src/safeharbor/server/InMemory.go:1554-1589 | entry, resource list and party list, in that order, or an error that leaves all as it was |
| AccessProofs.CreateEntryConsistentIff | src/safeharbor/server/InMemory.go:1554-1589 | creating an entry keeps one entry per pair exactly when the pair had none; then the pair has exactly the given mask and all other pairs keep theirs |
| AccessProofs.CreateEntryKeepsLinked | src/safeharbor/server/InMemory.go:1554-1589 | after creation every entry is once in its resource's and once in its party's list, and the lists hold nothing else |
| AccessMethods.SetAccess | src/safeharbor/server/InMemory.go:493-507 | the three outcomes of the search: error, creation, or a replaced mask |
| AccessProofs.SetAccessOnMatrix | src/safeharbor/server/InMemory.go:493-507 | after setAccess the pair's rights are exactly the new mask and every other pair keeps its rights |
| AccessMethods.OrInto | src/safeharbor/server/InMemory.go:519-522 | the in-place loop leaves the union of both masks, also when both are one array |
| AccessMethods.EditMask | src/safeharbor/server/InMemory.go:519-522 | editing a stored mask in place changes every entry that holds the same array, and no other |
| AccessMethods.AddAccess | src/safeharbor/server/InMemory.go:509-530 | creation, or the in-place union, with all three outcomes |
| AccessProofs.AddAccessOnMatrixIff | src/safeharbor/server/InMemory.go:509-530 | the pair's rights become the union of old and new; the other pairs keep theirs exactly when no other entry holds the array or nothing is added |
| AccessProofs.AddAccessCreates | src/safeharbor/server/InMemory.go:509-518 | on a pair without an entry addAccess grants exactly the mask |
| AccessMethods.DeleteACLEntryForParty | src/safeharbor/server/InMemory.go:930-939 | the id leaves the party's list and the entry leaves the store |
| AccessMethods.DeleteAccessTurn | src/safeharbor/server/InMemory.go:536-559 | one turn of the loop, with its three error returns and the removal by position; the entries that are left keep their objects and mask arrays |
| AccessMethods.DeleteAccess | src/safeharbor/server/InMemory.go:532-562 | the loop over a copy of the list does what the function over that copy says; the entries that are left keep their objects and mask arrays |
| AccessProofs.DeleteAccessOnMatrix | src/safeharbor/server/InMemory.go:532-562 | after deleteAccess the pair has no rights and every other pair keeps its own |
| AccessProofs.DeleteAccessLinkedIff | src/safeharbor/server/InMemory.go:532-566 | deleteAccess succeeds and keeps the indexes linked exactly when the pair has at most one entry; a second one would be removed at a stale position |
| Basics.RemoveAtIsRemoveFrom | src/safeharbor/server/InMemory.go:564-566 | on a list without repetition removal by position is removal by value |
| AccessMethods.DeleteAllAccessToResource | src/safeharbor/server/InMemory.go:641-670 | the loop detaches every entry of the resource and clears its list, or stops at the first error; the entries that are left keep their objects and mask arrays |
| ClearProofs.DeleteAllAccessClears | src/safeharbor/server/InMemory.go:641-670 | deleteAllAccessToResource removes exactly the resource's entries, from the store and from every party's list |
| ClearProofs.ClearedConsistent | src/safeharbor/server/InMemory.go:641-670 | clearing resources keeps the index invariant and takes exactly the permissions on them out of the access matrix |
| AccessRuns.StepKeeps | src/safeharbor/server/InMemory.go:493-562 | every access operation keeps the index invariant and acts on the access matrix as its name says |
| AccessRuns.RunRefinesMatrix | src/safeharbor/server/InMemory.go:493-670 | over every run of the access operations the two-index store refines a plain map from (party, resource) to masks |
| Authorization.ActionOf | src/safeharbor/server/auth.go:293-301 | no action exactly when no field of the mask is set, too many exactly when two are, else the one field that is set |
| AccessMethods.FindAction | src/safeharbor/server/auth.go:293-301 | the loop finds the one field that is set, none, or an error for two |
| AccessMethods.PartyHasAccess | src/safeharbor/server/auth.go:290-317 | the walk over the party's entries decides as specified, errors included |
| AccessMethods.PartyCanReach | src/safeharbor/server/auth.go:220-237 | the resource first, then its immediate parent if it has one |
| AccessMethods.AnyPartyCanReach | src/safeharbor/server/auth.go:217-244 | the user and then each group, until one is allowed or fails |
| AccessMethods.Authorized | src/safeharbor/server/auth.go:157-246 | the whole decision, with every error return |
| AuthorizationProofs.PartyHasAccessMeans | src/safeharbor/server/auth.go:290-317 | a party has access exactly when some entry joins it to the resource with the bit set |
| AuthorizationProofs.AuthorizedIff | src/safeharbor/server/auth.go:157-246 | yes exactly when the resource is the user itself, or the user or one of its groups has the bit on the resource or its immediate parent; never an error |
| AuthorizationProofs.AuthorizedMeans | src/safeharbor/server/auth.go:157-246 | for any login, mask and id: an error for a login without a user, yes for the own object, an error for two fields or an id that no resource has, else yes exactly when the mask has a field and a party of the user has that right on the resource or its parent |
| AuthorizationProofs.DeadGroupDecides | src/safeharbor/server/auth.go:217-244 | with a group that does not exist the parties before it decide, and else there is an error |
| AuthorizationProofs.DeadParentDecides | src/safeharbor/server/auth.go:220-237 | with a parent that does not exist only a right of the user itself on the resource helps, and else there is an error |
| AuthorizationProofs.AuthorizedFromResourceSide | src/safeharbor/server/auth.go:151-156 | deciding from the lists of the resource and its parent, as the comment says the code does, gives the same answer as the walk over the party's list that it does |
| AuthorizationProofs.DecisionIsGrant | src/safeharbor/server/auth.go:290-317 | partyHasAccess answers what the access matrix says |
| AuthorizationProofs.SetAccessDecides | src/safeharbor/server/InMemory.go:493-507 | after setAccess the party may do exactly what the mask says; every other question is answered as before |
| AuthorizationProofs.AddAccessDecides | src/safeharbor/server/InMemory.go:509-530 | after addAccess the party may do what it could before and what the mask says; every other question is answered as before |
| AuthorizationProofs.DeleteAccessDecides | src/safeharbor/server/InMemory.go:532-562 | after deleteAccess the party may do nothing on the resource; every other question is answered as before |
| DeactivationMethods.DeleteAllAccess | src/safeharbor/server/InMemory.go:1797-1807 | clears each listed resource in turn and stops at the first error |
| DeactivationMethods.ClearRepo | src/safeharbor/server/InMemory.go:1759-1777 | a repo, then what its four lists name: dockerfiles, images, scan configs and flags |
| DeactivationMethods.DbDeactivateRealm | src/safeharbor/server/InMemory.go:1745-1795 | the realm, its repos, its users and its groups, in that order, with every error return; it succeeds exactly when all that the lists name is live and of the right type; only entries are deleted, and the others keep their mask arrays |
| Deactivation.DeactivateMeans | src/safeharbor/server/InMemory.go:1745-1807 | it succeeds exactly when everything that realm and repos list is live and of the right type, and then clears the realm, every repo it lists and every dockerfile, image, scan config and flag that those list |
| Deactivation.NobodyAuthorized | src/safeharbor/server/InMemory.go:1745-1807 | after a successful deactivation nobody is authorized for any single action on the realm, a repo that it lists or anything that such a repo lists, if children name their parents; ResourceTree.TreeMeans shows that they do |
| Deactivation.DeactivateKeepsTheRest | src/safeharbor/server/InMemory.go:1745-1807 | every permission on a resource that neither the realm nor a repo of it lists is as it was, and none is left inside |
| Deactivation.DeactivateInactivates | src/safeharbor/server/InMemory.go:1778-1792 | exactly the realm's users and groups become inactive |
| Names.FindByNameMeans | src/safeharbor/server/InMemory.go:2603-2643 | with live members a search by name finds a member of that name, or says rightly that there is none |
| Names.FindByNameFirst | src/safeharbor/server/InMemory.go:2603-2643 | whatever the list names: the search ends at the first id that has the name or names nothing of the right type, and tells which; it finds nothing exactly when it gets through the whole list |
| Names.SearchAfterStore | src/safeharbor/server/InMemory.go:4158-4176 | storing a new object before the search by name does not change its answer |
| Names.SearchAgain | src/safeharbor/server/InMemory.go:1020-1053 | the second search by name, in addGroup, finds nothing when the first did not |
| ScanLinkMethods.GetByName | src/safeharbor/server/InMemory.go:2603-2643 | the search loop, with the error for a member that is missing or of another type |
| Names.CandidateInjective | src/safeharbor/server/InMemory.go:2181 | different numbers make different candidate names |
| Names.CandidateIff | src/safeharbor/server/InMemory.go:2181 | a candidate is the prefix, an underscore and the number in decimal digits without leading zeros, and nothing else is |
| Names.CreateUniqueNameMeans | src/safeharbor/server/InMemory.go:2170-2190 | the result is free, is the prefix, an underscore and a decimal number from 1 to 1000, and every such name with a smaller number is taken; it fails exactly when the prefix is refused or all those names are taken, so never with fewer than 1000 members |
| Decimal.NumeralIff | src/safeharbor/server/InMemory.go:2181 | the digits that are printed for a number are the only digits without a leading zero whose value it is |
| ScanLinkMethods.CreateUniqueName | src/safeharbor/server/InMemory.go:2645-2665 | the loop of both unique-name searches returns what the specification says, with live members the free name with the least number |
| ScanLinkMethods.RemoveScanConfigRef | src/safeharbor/server/InMemory.go:4214-4218 | the flag no longer lists the config |
| ScanLinkMethods.AddScanConfigRef | src/safeharbor/server/InMemory.go:4209-4212 | the flag lists the config, once |
| ScanLinkMethods.SetFlagId | src/safeharbor/server/InMemory.go:3898-3914 | old flag, config and new flag are updated in that order, or nothing is; when it succeeds the new flag lists the config and the config names it |
| ScanLinkProofs.SetFlagIdMeans | src/safeharbor/server/InMemory.go:3898-3914 | it succeeds exactly when the flag is set already, or the new flag is live and the old one is none or live; then the config uses the new flag and no other, on both sides, and every other config the one that it had; otherwise nothing changes |
| ScanLinkMethods.AddDockerImage | src/safeharbor/server/InMemory.go:3935-3946 | the config's list first, then the image's; an unknown image leaves the first change behind |
| ScanLinkProofs.AddDockerImageIff | src/safeharbor/server/InMemory.go:3935-3946 | addDockerImage succeeds, and keeps the links symmetric, exactly when the image is live; it adds exactly that pair, to one list or to both, and changes nothing else |
| ScanLinkMethods.RemDockerImage | src/safeharbor/server/InMemory.go:3948-3959 | the pair leaves both lists |
| ScanLinkProofs.RemDockerImageKeeps | src/safeharbor/server/InMemory.go:3948-3959 | unlinking a live image succeeds, takes exactly that pair out of both lists, and changes nothing else |
| ScanLinkMethods.DbCreateScanConfig | src/safeharbor/server/InMemory.go:3721-3759 | name check, object, flag and repo, in that order, with what each error leaves behind |
| ScanLinkCreation.CreateScanConfigMeans | src/safeharbor/server/InMemory.go:3721-3759 | it succeeds exactly when repo and flag are live and the name is free; then the config has exactly the given name, parent, flag and values, repo and flag list it, and nothing else changes; the links break exactly when the name is free and the flag is dead or a given parameter value is not free, because the config is stored first |
| ScanLinkMethods.DbCreateFlag | src/safeharbor/server/InMemory.go:4158-4176 | the flag is stored before the repo and the name are checked |
| ScanLinkCreation.CreateFlagMeans | src/safeharbor/server/InMemory.go:4158-4176 | it succeeds exactly when the repo is live and has no flag of that name; then the repo lists one more flag, with that name and parent, and nothing else changes; when it fails the flag is stored and not listed; the links hold either way |
| ScanLinkMethods.DbCreateDockerImage | src/safeharbor/server/InMemory.go:3131-3147 | the image is stored before the name is checked |
| ScanLinkCreation.CreateDockerImageMeans | src/safeharbor/server/InMemory.go:3131-3147 | it succeeds exactly when the repo is live and the name is free; then the repo lists one more image, with that name and parent, and nothing else changes; the links hold either way |
| ScanLinkMethods.DbCreateScanEvent | src/safeharbor/server/InMemory.go:4402-4444 | the actual parameter values are stored first, then config, event and user in that order, then the config lists the event, and last the image version is looked up |
| ScanLinkCreation.CreateScanEventMeans | src/safeharbor/server/InMemory.go:4402-4444 | it succeeds exactly when config, user and image version are live; with a live config and user the config lists the event, which names it and holds its new parameter values, and nothing else changes; the links break exactly when the config is live and the user is not, because the event is stored first |
| ScanLinkMethods.DbCreateScanParameterValue | src/safeharbor/server/InMemory.go:4065-4077 | the config is looked up, then the value is stored and put on the config's list |
| ScanLinkCreation.CreateParameterMeans | src/safeharbor/server/InMemory.go:4065-4077 | it gives a live config one more value, which nothing else holds, changes nothing else and keeps all links; an unknown config changes nothing |
| ScanLinkMethods.DeleteScanEvent | src/safeharbor/server/InMemory.go:1433-1455 | the config's list, then each parameter value, then the event, with the errors between them |
| ScanRemoval.DeleteScanEventIff | src/safeharbor/server/InMemory.go:4475-4485 | in any store an event is deleted exactly when it names a live config and lists live parameter values, each once; then the values go with it |
| ScanRemoval.DeleteScanEventMeans | src/safeharbor/server/InMemory.go:1433-1455 | in a store in step an event can be deleted exactly when it still names a config; then event and parameter values are gone, no config lists it, all other resources, lists, links and values are as they were, and the links hold either way |
| ScanLinkMethods.NullifyEvents | src/safeharbor/server/InMemory.go:2437-2447 | each event of the config loses its config id, up to the first error |
| ScanLinkMethods.DeleteAllParameterValues | src/safeharbor/server/InMemory.go:3870-3880 | the parameter values go one by one; an error leaves the list |
| ScanLinkMethods.Unlink | src/safeharbor/server/InMemory.go:2452-2467 | the flag first, then each image |
| ScanLinkMethods.DeleteScanConfig | src/safeharbor/server/InMemory.go:2435-2481 | events, parameters, flag, images, repo, access list and object, in that order |
| ScanDeletion.DeleteScanConfigMeans | src/safeharbor/server/InMemory.go:2435-2481 | it succeeds, its parameter values are gone, and no flag, image, event, repo list or access list names the config any more; links stay symmetric, and all other resources, lists, links, values and permissions are as they were |
| ScanLinkMethods.DeleteFlag | src/safeharbor/server/InMemory.go:2483-2511 | refused while in use or when the file stays; otherwise repo, access list and object |
| ScanRemoval.DeleteFlagMeans | src/safeharbor/server/InMemory.go:2483-2511 | a flag is deleted exactly when no config uses it and its file is removed; then nothing names it, and all other resources, lists, links and permissions stay; otherwise nothing changes, so no config is left with a dead flag |
| ScanLinkMethods.DeleteDockerImage | src/safeharbor/server/InMemory.go:2539-2572 | access list, each scan config, repo and object, in that order |
| ScanRemoval.DeleteDockerImageMeans | src/safeharbor/server/InMemory.go:2539-2572 | an image is deleted exactly when its versions are; then no config, repo or access list names it, and all other resources, lists, links and permissions stay; otherwise nothing changes |
| ScanLinkRuns.LinkStepIff | src/safeharbor/server/InMemory.go:3721-4444 | a link, unlink, create or delete call, successful or not, keeps the links in step exactly when it stores no config with a dead flag or a value that is not free, no event for an unknown user, and links no unknown image |
| ScanLinkRuns.LinkStepSafe | src/safeharbor/server/InMemory.go:2435-2572 | every such call, with any arguments, keeps repo lists and access lists in step |
| ScanLinkRuns.LinkRunKeeps | src/safeharbor/server/InMemory.go:2435-2572 | over every run of harmless calls, failed ones included, all links stay symmetric, no config has a dead flag, and every listed parameter value is live |
| MembershipMethods.AddUserId | src/safeharbor/server/InMemory.go:1874-1900 | the checks and the two updates of addUserId |
| Membership.AddUserIdMeans | src/safeharbor/server/InMemory.go:1874-1900 | it succeeds exactly for a user without a realm whose name is free there, adds exactly that membership, and changes nothing else |
| MembershipMethods.RemoveUserId | src/safeharbor/server/InMemory.go:1902-1919 | the checks and the two updates of removeUserId |
| Membership.RemoveUserIdMeans | src/safeharbor/server/InMemory.go:1902-1919 | it succeeds exactly for a member of the realm, removes exactly that membership, and changes nothing else |
| MembershipMethods.AddUser | src/safeharbor/server/InMemory.go:1937-1952 | the name check, the list and the user's realm id, for any user, whatever realm it names |
| Membership.AddUserIff | src/safeharbor/server/InMemory.go:1937-1952 | it succeeds exactly when the name is free, and then adds one membership; the realm lists stay in step exactly when no other realm lists the user |
| MembershipMethods.DbCreateUser | src/safeharbor/server/InMemory.go:1206-1236 | the login name is taken once the object is stored, even when the realm then refuses the user |
| Membership.CreateUserMeans | src/safeharbor/server/InMemory.go:1206-1236 | an active user with that name, login name and realm is stored; the realm lists stay right even when creation fails; then, and only then, the stored user names a realm that does not list it |
| MembershipMethods.MoveUserToRealm | src/safeharbor/server/Handlers.go:857-902 | the handler's checks, the removal and the addition |
| Membership.MoveUserMeans | src/safeharbor/server/Handlers.go:857-902 | a move succeeds exactly when the destination is another live realm with the name free and then moves one membership; if only the name is in the way the user ends in no realm |
| Membership.OneRealmPerUser | src/safeharbor/server/InMemory.go:1874-1919 | no user is in the lists of two realms |
| Membership.MemberRunKeeps | src/safeharbor/server/InMemory.go:1874-1952 | in every reachable state, failed calls included, a listed user names the realm that lists it, and nobody is listed twice |
| GroupMethods.HasUserWithId | src/safeharbor/server/InMemory.go:1076-1087 | the user is live and the group lists it |
| GroupMethods.HasGroupWithId | src/safeharbor/server/InMemory.go:1326-1336 | the group is live and the user lists it |
| GroupMethods.AddGroupIdDeferredUpdate | src/safeharbor/server/InMemory.go:1338-1357 | the checks and the update of the user's list |
| GroupMethods.AddUserId | src/safeharbor/server/InMemory.go:1089-1110 | the checks, the group's list and then the user's list; an error of the second update leaves the first behind |
| GroupMembership.AddMemberMeans | src/safeharbor/server/InMemory.go:1089-1110 | it succeeds exactly for a user that does not list the group; for any user, even with an error, it leaves the membership on both sides and all others as they were |
| GroupMethods.AddGroupUser | src/safeharbor/server/Handlers.go:610-633 | the handler looks the group up, adds the user, and updates the user again |
| GroupMembership.HandlerAddsOnce | src/safeharbor/server/Handlers.go:610-633 | the second update does nothing |
| GroupMethods.RemoveUser | src/safeharbor/server/InMemory.go:1112-1122 | the search loop, and the group's list without that position |
| GroupMembership.RemoveMemberMeans | src/safeharbor/server/InMemory.go:1112-1122 | it succeeds exactly for a user that the group lists, takes it off that list, and leaves every user's list of groups as it was |
| GroupMethods.RemGroupUser | src/safeharbor/server/Handlers.go:655-669 | the handler looks up group and user and removes |
| GroupMembership.RemovalChangesNoAnswer | src/safeharbor/server/auth.go:157-246 | removeUser changes no answer of authorized, for any user, mask and resource |
| GroupMembership.RemovalLeavesAccessIff | src/safeharbor/server/auth.go:216-241 | removeUser leaves the user an access that taking the membership off both sides would end, exactly when that group alone gives it the right |
| ResourceTreeMethods.DbCreateRepo | src/safeharbor/server/InMemory.go:2278-2308 | the realm, the name, the rules, the object and the realm's list, in that order, with every error return |
| ResourceTreeMethods.AddRepo | src/safeharbor/server/InMemory.go:1969-1982 | the realm's name check and its list |
| ResourceTree.CreateRepoMeans | src/safeharbor/server/InMemory.go:2278-2308 | with a name it succeeds exactly when the realm is live, the rules allow the name and it is free; without one, exactly when the rules allow prefix and name and one of the 1000 names of the prefix is free, and then with the least-numbered one; the realm lists one more repo, without content, and nothing else changes; the tree holds either way |
| ResourceTreeMethods.DbCreateDockerfile | src/safeharbor/server/InMemory.go:2842-2863 | the dockerfile is stored before the repo is looked up and checks the name |
| ResourceTree.CreateDockerfileMeans | src/safeharbor/server/InMemory.go:2842-2863 | it succeeds exactly when the repo is live and the name is free; then the repo lists one more dockerfile, with that name and parent, and nothing else changes; when it fails the file is stored and not listed; the tree holds either way |
| ResourceTreeMethods.DbCreateGroup | src/safeharbor/server/InMemory.go:1020-1053 | the name check, the object, the second name check and the realm's list |
| ResourceTree.CreateGroupMeans | src/safeharbor/server/InMemory.go:1020-1053 | it succeeds exactly when the realm is live and the name is free; then the realm lists one more group, active and without members, and nothing else changes; it changes nothing otherwise |
| ResourceTree.TreeMeans | src/safeharbor/server/InMemory.go:1745-1807 | in a store in step everything a realm and its repos list is live and names its parent, as deactivation needs |
| StoreRuns.AccessKeeps | src/safeharbor/server/InMemory.go:493-670 | the access operations keep the links, the memberships in realms and groups, and the tree |
| StoreRuns.ResultOk | src/safeharbor/server/InMemory.go:1745-2572 | all other operations, whether they succeed or fail, keep access lists, repo lists, memberships and tree in step, make no ACL entry and change none, and take no group from a user |
| StoreRuns.DeactivateKeeps | src/safeharbor/server/InMemory.go:1745-1807 | in a store in step deactivation succeeds for every realm and keeps every relation |
| StoreRuns.OnlyAccessGrants | src/safeharbor/server/InMemory.go:493-530 | after an operation that is not an access operation, whether it succeeds or fails, no party may do what it could not do before |
| StoreRuns.StepLinksIff | src/safeharbor/server/InMemory.go:2435-4444 | in a store in step an operation keeps the links of scan configs as well exactly when it is harmless in the sense of LinkStepIff |
| StoreRuns.RunKeepsLinks | src/safeharbor/server/InMemory.go:2435-4444 | over every run of harmless operations all links stay in step as well |
| StoreRuns.RunKeepsStore | src/safeharbor/server/InMemory.go:493-2572 | over every run of all operations, with any arguments and failed calls included, access lists, repo lists, memberships and tree stay in step together, and no user ever loses a group |
| StoreRuns.ReachableDeactivation | src/safeharbor/server/InMemory.go:1745-1807 | in every state reachable from the empty store, failed calls included, deactivation of a realm succeeds, and then every existing user, with all its groups, is refused the realm, each repo that it lists and everything that such a repo lists |
| ObjectCache.InMemClientCache.GetPersistentObject | src/safeharbor/server/InMemory.go:131-145 | cache first, then the map, and the map's answer when the two agree |
| ObjectCache.InMemClientCache.ResetTransactionCache | src/safeharbor/server/InMemory.go:102-106 | the caches are emptied, and so agree with the map |
| ObjectCache.InMemClientCache.UpdateObject | src/safeharbor/server/InMemory.go:147-160 | cache and map are written together |
| ObjectCache.InMemClientCache.DeleteObject | src/safeharbor/server/InMemory.go:185-190 | cache and map lose the object together |
| ObjectCache.InMemClientCache.DoAddUser | src/safeharbor/server/InMemory.go:234-242 | the caches are filled before the login name is checked |
| ObjectCache.InMemClientCache.DbGetUserByUserId | src/safeharbor/server/InMemory.go:244-263 | a user found in the map is cached under the login name in both caches |
| ObjectCache.CoherentIffAgrees | src/safeharbor/server/InMemory.go:131-145 | the cache is invisible exactly when everything cached is what the map holds |
| ObjectCache.WriteThenRead | src/safeharbor/server/InMemory.go:147-190 | a lookup finds what was written last, whatever operations on other objects lie between, and nothing after a deletion |
| ObjectCache.AddUserCoherentIff | src/safeharbor/server/InMemory.go:234-242 | addUser leaves a coherent cache exactly when it succeeds or stops at its first check |
| ObjectCache.GetUserCoherentIff | src/safeharbor/server/InMemory.go:244-263 | a lookup by login name leaves a coherent cache exactly when it was answered without the map or the login name is the object id |
| ObjectCache.UserCachedIff | src/safeharbor/server/InMemory.go:234-263 | over every run a name is in the user cache exactly when it was there before or some operation put it there |
| ObjectCache.DeletedUserFoundIff | src/safeharbor/server/InMemory.go:244-263 | over every run of a client, a deleted user is still found by login name exactly when an earlier operation cached that name |
| ObjectCache.RunCacheInvisible | src/safeharbor/server/Persistence.go:342-391 | over every run a lookup by an id that is no login name gives what a client without a cache would get |
| ObjectCache.LoginNameAnswered | src/safeharbor/server/InMemory.go:260 | an input that shows why: an id that no object has is answered with a user |
| JsonTokens.ReadAgain | src/safeharbor/server/DBjson.go:422-455 | reading a token, pushing it back and reading again gives the same token and the same end |
| JsonTokens.TokenAdvances | src/safeharbor/server/DBjson.go:422-451 | a token that is not empty advances, and only text of white space alone has no token |
| JsonTokens.NextTokenMeans | src/safeharbor/server/DBjson.go:422-451 | every text is white space, a token and the rest, with all characters named: the token is one of the eight special characters alone, or a longest run of others |
| JsonTokens.ScanIntOfText | src/safeharbor/server/DBjson.go:319-325 | scanning the decimal text of a 64-bit integer gives the integer |
| JsonParser.Parser.FindNextToken | src/safeharbor/server/DBjson.go:422-451 | the position moves behind the token and never past the end |
| JsonParser.Parser.PushTokenBack | src/safeharbor/server/DBjson.go:453-455 | the position is in front of the token again |
| JsonParser.Parser.Number | src/safeharbor/server/DBjson.go:313-326 | a number, or the token is pushed back |
| JsonParser.Parser.ClosingQuote | src/safeharbor/server/DBjson.go:339-358 | the loop that looks for an unescaped quote and forgets what stands before an escaped one |
| JsonParser.Parser.StringText | src/safeharbor/server/DBjson.go:328-371 | a decoded string, a pushed-back token or an error |
| JsonParser.Parser.Boolean | src/safeharbor/server/DBjson.go:373-381 | true, false, or a pushed-back token |
| JsonParser.Parser.Time | src/safeharbor/server/DBjson.go:383-415 | the quoted time after the word, a pushed-back token or an error |
| JsonParser.Parser.Simple | src/safeharbor/server/DBjson.go:259-281 | the four alternatives in order, each leaving the text as it was when it does not apply |
| JsonParser.Parser.AnyValue | src/safeharbor/server/DBjson.go:198-211 | an array or a simple value; the position ends between its start and the end of the text |
| JsonParser.Parser.Array | src/safeharbor/server/DBjson.go:213-257 | an array of one type of element, an empty one, or an error |
| JsonParser.Parser.CommaValue | src/safeharbor/server/DBjson.go:283-311 | the further elements; one that is missing or of another type is an error |
| JsonParser.Parser.Field | src/safeharbor/server/DBjson.go:121-154 | a named value, nothing, or an error |
| JsonParser.Parser.CommaField | src/safeharbor/server/DBjson.go:156-181 | the further fields; after a comma even a missing field is appended |
| JsonParser.Parser.Object | src/safeharbor/server/DBjson.go:75-119 | the values of an object, none, or an error; an object without fields is left unfinished |
| JsonReader.ParseObject | src/safeharbor/server/DBjson.go:87-119 | the mutually recursive readers end, and never leave more text than there was |
| JsonRoundTrip.SimpleRead | src/safeharbor/server/DBjson.go:259-281 | whatever alternatives fail first, a printed simple value is read and its end is found |
| JsonRoundTrip.StringReadIff | src/safeharbor/server/DBjson.go:328-371 | text without an escape character is read back exactly when it has no quote, because nothing escapes it when it is printed |
| JsonRoundTrip.FindEndMeans | src/safeharbor/server/DBjson.go:339-358 | in any text and with any decoder, a string ends at the first quote that is not escaped, and has no end when all are; what is taken is the piece behind the last escaped quote |
| JsonRoundTrip.ListRead | src/safeharbor/server/DBjson.go:213-257 | a printed flat list is read back, the empty one without a type of its own |
| JsonRoundTrip.ListReadIff | src/safeharbor/server/DBjson.go:213-311 | a printed list of simple values is read exactly when all are of one type and a bracket closes it; with a brace instead, or with another type, it is an error |
| JsonRoundTrip.FieldRead | src/safeharbor/server/DBjson.go:121-154 | a printed field is read back as its value |
| JsonRoundTrip.ObjectRead | src/safeharbor/server/DBjson.go:75-119 | for every non-empty list of named fields the reader returns exactly the printed values, in order, and stops behind the closing brace |
| JsonRoundTrip.ObjectReadIff | src/safeharbor/server/DBjson.go:75-119 | a printed object is read exactly when a brace closes it |
| JsonPrinter.PrintLoop | src/safeharbor/server/InMemory.go:1481-1484 | the loop that every printer has for its lists prints the elements with separators between them |
| JsonPrinter.AddString | src/safeharbor/server/InMemory.go:1477-1480 | one text field more at the end of the printed text |
| JsonPrinter.AddTime | src/safeharbor/server/InMemory.go:958-963 | one time field more, in the words the reader expects |
| StoredMethods.PartyFieldsAsJson | src/safeharbor/server/InMemory.go:956-970 | the shared fields of users and groups, in order |
| StoredMethods.ResourceFieldsAsJson | src/safeharbor/server/InMemory.go:789-795 | the shared fields of resources, in order, with the access list |
| StoredMethods.UserAsJson | src/safeharbor/server/InMemory.go:1473-1501 | the text of a user is its fourteen fields in the printed format |
| StoredMethods.GroupAsJson | src/safeharbor/server/InMemory.go:1138-1149 | the text of a group, likewise |
| StoredMethods.EntryAsJson | src/safeharbor/server/InMemory.go:1645-1657 | the text of an ACL entry, likewise |
| StoredMethods.RealmAsJson | src/safeharbor/server/InMemory.go:2199-2221 | the text of a realm, likewise |
| StoredMethods.RepoAsJson | src/safeharbor/server/InMemory.go:2760-2793 | the text of a repo, likewise, with the misspelt name of the dockerfile list |
| StoredMethods.DockerfileAsJson | src/safeharbor/server/InMemory.go:2957-2969 | the text of a dockerfile, likewise |
| StoredMethods.DockerImageAsJson | src/safeharbor/server/InMemory.go:3251-3260 | the text of a docker image, likewise |
| StoredMethods.ScanConfigAsJson | src/safeharbor/server/InMemory.go:3996-4018 | the text of a scan config, likewise |
| StoredMethods.FlagAsJson | src/safeharbor/server/InMemory.go:4241-4252 | the text of a flag, likewise |
| StoredMethods.InfoAsJson | src/safeharbor/server/InMemory.go:374-379 | the text of an identity validation record, likewise |
| StoredText.PartyPrinted | src/safeharbor/server/InMemory.go:956-970 | the shared fields of users and groups, each spelled out as text |
| StoredText.ResourcePrinted | src/safeharbor/server/InMemory.go:789-795 | the shared fields of resources, likewise |
| StoredText.UserPrinted | src/safeharbor/server/InMemory.go:1473-1501 | the text of a user, spelled out: type name, every field name, and how each value is written |
| StoredText.GroupPrinted | src/safeharbor/server/InMemory.go:1138-1149 | the text of a group, spelled out likewise |
| StoredText.EntryPrinted | src/safeharbor/server/InMemory.go:1645-1657 | the text of an ACL entry, spelled out likewise |
| StoredText.RealmPrinted | src/safeharbor/server/InMemory.go:2199-2221 | the text of a realm, spelled out likewise |
| StoredText.RepoPrinted | src/safeharbor/server/InMemory.go:2760-2793 | the text of a repo, spelled out likewise |
| StoredText.DockerfilePrinted | src/safeharbor/server/InMemory.go:2957-2969 | the text of a dockerfile, spelled out likewise |
| StoredText.DockerImagePrinted | src/safeharbor/server/InMemory.go:3251-3260 | the text of a docker image, spelled out likewise |
| StoredText.ScanConfigPrinted | src/safeharbor/server/InMemory.go:3996-4018 | the text of a scan config, spelled out likewise |
| StoredText.FlagPrinted | src/safeharbor/server/InMemory.go:4241-4252 | the text of a flag, spelled out likewise |
| StoredText.InfoPrinted | src/safeharbor/server/InMemory.go:374-379 | the text of an identity validation record, spelled out likewise |
| StoredText.AsJsonIsText | src/safeharbor/server/InMemory.go:374-4252 | so for every stored object of the ten types the printers write the text that is spelled out, in literal names and characters |
| StoredObjects.UserFits | src/safeharbor/server/InMemory.go:1503-1524 | the printed fields of a user fit the parameters of its constructor by position and type, and rebuild it |
| StoredObjects.GroupFits | src/safeharbor/server/InMemory.go:1151-1165 | the same for a group |
| StoredObjects.EntryFits | src/safeharbor/server/InMemory.go:1659-1673 | the same for an ACL entry |
| StoredObjects.RealmFits | src/safeharbor/server/InMemory.go:2223-2244 | the same for a realm |
| StoredObjects.RepoFits | src/safeharbor/server/InMemory.go:2795-2814 | the same for a repo |
| StoredObjects.DockerfileFits | src/safeharbor/server/InMemory.go:2971-2986 | the same for a dockerfile |
| StoredObjects.DockerImageFits | src/safeharbor/server/InMemory.go:3262-3277 | the same for a docker image |
| StoredObjects.ScanConfigFits | src/safeharbor/server/InMemory.go:4020-4040 | the same for a scan config |
| StoredObjects.FlagFits | src/safeharbor/server/InMemory.go:4254-4269 | the same for a flag |
| StoredObjects.InfoFits | src/safeharbor/server/InMemory.go:381-393 | the same for an identity validation record |
| StoredObjects.ListFits | src/safeharbor/server/Persistence.go:698-721 | a list that was read is made anew with the parameter's element type, bytes and empty lists included |
| StoredMethods.ConvertElements | src/safeharbor/server/Persistence.go:714-720 | the inner loop converts every element or stops at the run-time error |
| StoredMethods.FitArguments | src/safeharbor/server/Persistence.go:691-730 | the outer loop rewrites the argument array and checks every type |
| StoredMethods.ReconstituteObject | src/safeharbor/server/Persistence.go:656-735 | type name, fields, number and types of arguments, constructor; every error return |
| StoredRoundTrip.TypeNameRead | src/safeharbor/server/DBjson.go:35-52 | the type name and the rest are found in printed text |
| StoredRoundTrip.ReconstituteUndoesPrinting | src/safeharbor/server/Persistence.go:656-735 | reading back a printed object of any of the ten types gives the same object in every field, if no text needs escaping |
| StoredRoundTrip.ReconstituteIff | src/safeharbor/server/Persistence.go:656-735 | whatever fields are printed under whatever name, an object is made of them exactly when a constructor of that name has as many parameters and each field can stand for its own |
| StoredRoundTrip.AsJsonInjective | src/safeharbor/server/InMemory.go:1473-1501 | different objects are printed differently |
| Replies.ParseIntBytes | src/goredis/redis.go:213-219 | parsing the decimal text of a 64-bit integer gives the integer |
| Replies.RecvEncode | src/goredis/redis.go:192-263 | every reply tree of any depth is read back from its encoding, null and empty kept apart, and exactly the following bytes stay unread |
| Replies.EncodeUnique | src/goredis/redis.go:192-263 | no two replies look the same on the wire, whatever follows them |
| Replies.WireFormat | src/goredis/redis.go:192-263 | the encoding of each form of reply, in literal characters |
| Replies.RecvByCharacter | src/goredis/redis.go:192-263 | what is read by the first character of a line, for any character, text and number, negative sizes included, and any two bytes at the end of a line or a bulk |
| Replies.NoLine | src/goredis/redis.go:192-199 | no reply without a line feed or with a line that is too short |
| Replies.Recv | src/goredis/redis.go:192-251 | every reply consumes at least three bytes, so the recursion ends |
| Replies.Reader.ReadBulk | src/goredis/redis.go:253-263 | nothing for a negative size, else the content and two more bytes, or an error |
| Replies.Reader.RecvReply | src/goredis/redis.go:192-251 | the method consumes the reader as the function says, for each of the five types and every error |
| Replies.Reader.RecvElements | src/goredis/redis.go:238-249 | the loop over the elements of an array reads them in order |
| Commands.NumLenIff | src/goredis/redis.go:120-131 | in 64-bit arithmetic numLen is the length of the decimal text exactly below 10^18; beyond, it is wrong or does not end |
| Commands.ComputeNumLen | src/goredis/redis.go:120-131 | for every 64-bit integer, with the overflow: the length of the text exactly below 10^18, else a wrong length, or none when the loop never ends |
| Commands.NumLenDecided | src/goredis/redis.go:120-131 | the power of ten becomes zero after 64 turns, so a loop that has not ended by then never ends |
| Commands.LargestNeverEnds | src/goredis/redis.go:120-131 | numLen of the largest 64-bit integer never ends |
| Commands.UintLen | src/goredis/redis.go:159-162 | for an unsigned number, first converted to a signed one, the length is right exactly below 10^18 |
| Commands.WriteCommand | src/goredis/redis.go:133-174 | for all arguments: the bytes are read back as the given texts and the decimal texts of the given numbers exactly when every type is known and every number is below 10^18 |
| Commands.PackCommandIff | src/goredis/redis.go:133-174 | the bytes of a command are read back as one bulk for each argument, which is the text or the digits of the number, with nothing left over, exactly when every type is known and every number is below 10^18 in magnitude |
| Commands.CommandNumbers | src/goredis/redis.go:133-174 | so parsing the bulk of a number gives the number, and the bulk of a text is the text |
| Commands.LargestNumberSplits | src/goredis/redis.go:159-162 | an input that shows why: after a command with the largest unsigned number in last place, sixteen of its digits are left over |
| Commands.PackCommandUnique | src/goredis/redis.go:133-174 | two commands that start the same stream have, place by place, arguments that say the same |
| Commands.StreamSplits | src/goredis/redis.go:133-174 | concatenated commands split into exactly those commands, each with bulks that say its arguments |
| Arguments.FlattenArgs | src/goredis/redis.go:95-118 | the loops append slices, maps and scalars in order and skip nil ones |
| Arguments.PackArgsAt | src/goredis/redis.go:95-118 | the arguments of each item stand behind those of the items before it: a scalar as itself, a slice in its order, a map as keys and values in turn; nothing else is added |
| Arguments.ItemsOverTheWire | src/goredis/redis.go:95-174 | the server reads one bulk for each argument of each item, in that order, and the bulk says the argument |
| Arguments.ReadHash | src/goredis/redis.go:623-646 | the loop takes the elements two by two, with its error returns |
| Arguments.HashValueMeans | src/goredis/redis.go:623-646 | for any reply: each key has the value of its last pair, an odd element is left out, a null bulk counts as the empty string; anything else in a pair, or a reply that is no array, is an error |
| Arguments.HashRoundTrip | src/goredis/redis.go:95-118 | whatever the order in which a map is walked, flattening it and reading the bulks back gives the map |
| Arguments.HashOverTheWire | src/goredis/redis.go:623-646 | the same through the bytes of a command and the reader |
| Arguments.ByteSliceRejectedIff | src/goredis/redis.go:95-118 | a byte slice among the items makes the command fail, unless it is empty, and then it is lost |
| RedisClient.PoolGetMeans | src/goredis/redis.go:283-297 | Get hands out the connection put back last, dials when there is none, and refuses when closed |
| RedisClient.PoolPutMeans | src/goredis/redis.go:299-315 | Put keeps the pool distinct and within its limit, and the connection is the next to be handed out |
| RedisClient.PutAllKeepsNewest | src/goredis/redis.go:299-315 | over any number of Puts an open pool keeps the newest connections, as many as its limit |
| RedisClient.PutWorksIff | src/goredis/redis.go:310-312 | giving back to an empty open pool works exactly when the limit is at least one |
| RedisClient.PutThenGet | src/goredis/redis.go:283-315 | last in, first out, over any number of Puts and then Gets |
| RedisClient.UnderstoodIff | src/goredis/redis.go:133-190 | the server finds the command that was meant, text by text and number by number, and nothing else, in the bytes exactly when it has a name, known types and numbers below 10^18 |
| RedisClient.AskOwnReply | src/goredis/redis.go:181-251 | when the bytes of the command are understood, the reply read is its own answer; otherwise nothing was written or the connection is lost |
| RedisClient.AskCleanIff | src/goredis/redis.go:181-251 | when write and read succeed, a clean connection stays clean exactly when the command has a name, its numbers are below 10^18 and it does not open MULTI |
| RedisMethods.Connection.SendCommand | src/goredis/redis.go:181-190 | the bytes of packCommand are written, or nothing is; the server answers the command once when it understands the bytes |
| RedisMethods.Connection.RecvReply | src/goredis/redis.go:192-251 | the oldest unread reply is read from the bytes the server has sent |
| RedisMethods.ConnPool.Get | src/goredis/redis.go:283-297 | the idle connection at the back, a new one, or none |
| RedisMethods.ConnPool.Put | src/goredis/redis.go:299-315 | the pool after Put |
| RedisMethods.ConnPool.Close | src/goredis/redis.go:274-281 | a closed pool keeps its list and hands out nothing |
| RedisMethods.ExecuteCommand | src/goredis/redis.go:329-362 | on a clean pool, a command with a name and numbers below 10^18 that is not MULTI gets the answer of the first attempt that works: a second one is made when the first loses its connection, a third when the first loses it at the write and the second at the read, and a connection so replaced is not in the pool afterwards; the pool stays clean, and in any case distinct and within its limit |
| RedisRuns.ExecuteOwnReply | src/goredis/redis.go:329-362 | over the three attempts, whatever the network does, the reply returned is the command's own, if its numbers are below 10^18, and the attempts are made as ExecuteRetries says |
| RedisRuns.ExecuteRetries | src/goredis/redis.go:329-362 | on an open pool with ordinary arguments: which attempts are made and with which connection, exactly when there is an answer and which, and that no connection that was lost and replaced is back in the pool |
| RedisRuns.ExecuteKeepsPoolIff | src/goredis/redis.go:329-362 | a command that is answered at once leaves the pool fit for use exactly when it has a name, its numbers are below 10^18 and it does not open MULTI |
| RedisRuns.OversizedPoisonsPool | src/goredis/redis.go:329-362 | what goes wrong otherwise: when the server answers the bytes twice, the next command gets the second reply |
| RedisMethods.NewTransaction | src/goredis/transactions.go:18-32 | a borrowed connection on which MULTI has been answered, whatever the network does before |
| RedisMethods.Transaction.Command | src/goredis/transactions.go:87-104 | flattened, sent, and accepted only when the answer is QUEUED |
| RedisMethods.Transaction.Exec | src/goredis/transactions.go:74-83 | the bytes of EXEC are written; the array of replies, or an error, and MULTI has ended |
| RedisMethods.Transaction.Discard | src/goredis/transactions.go:42-48 | the bytes of DISCARD are written, and MULTI has ended |
| RedisMethods.Transaction.Close | src/goredis/transactions.go:35-37 | the connection is back in the pool, which stays clean if the connection is |
| RedisMethods.Transaction.Finish | src/safeharbor/server/Persistence.go:86-105 | commit and abort give the connection back whatever the network does, and clean if no reply was unread |
| RedisClient.FinishClean | src/safeharbor/server/Persistence.go:86-105 | the connection that commit and abort give back is clean, whatever the network does |
| RedisClient.TxCommandMeans | src/goredis/transactions.go:87-104 | a queued command is accepted exactly when write and read work and the answer is the status QUEUED |
| RedisClient.TxEndMeans | src/goredis/transactions.go:42-83 | EXEC gives an array as it is and an error for any other answer; DISCARD works whatever the answer is |
| RedisClient.NamesOnWire | src/goredis/transactions.go:18-83 | the bytes of MULTI, EXEC and DISCARD, in literal characters |
| RedisMethods.Pipelined.Command | src/goredis/pipelining.go:30-36 | the counter goes up exactly when the command was sent |
| RedisMethods.Pipelined.Receive | src/goredis/pipelining.go:39-45 | the counter goes down exactly when a reply was read |
| RedisMethods.Pipelined.ReceiveAll | src/goredis/pipelining.go:48-62 | the pending replies in order, as many as the counter says, or those before the first read that fails |
| RedisMethods.Pipelined.Close | src/goredis/pipelining.go:24-27 | the connection is back in the pool, which stays clean if the connection is, and the counter is zero |
| RedisMethods.NewPipeline | src/goredis/pipelining.go:16-22 | a borrowed connection and a counter of zero |
| RedisClient.PipeInStepIff | src/goredis/pipelining.go:30-45 | the server stays in step with a pipeline exactly when every command sent has a name and numbers below 10^18 |
| RedisClient.PipelineOrder | src/goredis/pipelining.go:30-45 | with such commands, after n sends and m receives the counter is n - m and the k-th reply received answers the k-th command |
| RedisClient.ReceiveAllDrains | src/goredis/pipelining.go:48-62 | ReceiveAll succeeds exactly when no read fails, and then returns precisely the outstanding replies in order and leaves the counter at zero |
| RedisRuns.StepKeeps | src/goredis/redis.go:274-362 | every operation of pool, commands, transactions and pipelines, with numbers below 10^18, keeps the invariant of the idle and the borrowed connections, whatever the network does; a pipeline may be closed when no reply is outstanding, also after its connection was lost |
| RedisRuns.RunKeepsPool | src/goredis/redis.go:274-362 | over every run of such operations idle connections are distinct, not borrowed, within the limit, without an unread reply, outside MULTI and in step with the server |
| RedisRuns.RunThenExecute | src/goredis/redis.go:329-362 | so a command executed after any run gets its own reply |
| RedisRuns.NewClientOk | src/goredis/redis.go:472-507 | a new client with its first connection is as it should be |

## Left out

- HTTP handlers other than moveUserToRealm, addGroupUser and remGroupUser, authentication and authorization of their callers, sessions, login throttling, hashing, docker, scanners, files, email and logging: I/O around the modelled core.
- The Redis-mode read path and WATCH: reads go outside the queued transaction, so isolation is the server's and nothing is claimed about it.
- Stored text of scan events, dockerfile executions, image versions and parameter values: it is not in the grammar the reader accepts.
- Texts that need escaping: the escape code is not part of this model; StringReadIff covers texts without an escape character.
- deleteGroup, which walks a slice that it edits, and deleteDockerfile and deleteRepo, which leave the object in the store; renaming users and scan configs, which no name check covers.
- deleteUserId: it removes the membership as removeUserId does and deletes the object, and leaves the user's ACL entries and login name behind.
- Concurrency of clients of one in-memory store: the operations run one after the other.
- Closing the sockets of a closed pool: a closed pool hands out nothing.
- Malformed replies: the server sends well-formed ones, though not always to the command that was meant.
- ScanLinkMethods.DbCreateScanEvent: the event lists of the user and of the image version are not modelled; whether the image version is found is a parameter.
- ScanLinkCreation.CreateScanEventMeans: says nothing of those two lists; the image version is a parameter here too.
- ScanLinkMethods.DeleteScanEvent: the user's event list is not modelled.
- ScanRemoval.DeleteScanEventMeans: says nothing of the user's event list.
- ScanLinkMethods.DeleteDockerImage: whether the image's versions can be deleted is a parameter, because docker removes them.
- ScanRemoval.DeleteDockerImageMeans: says nothing of the image's versions.
- StoredMethods.ReconstituteObject: knows the constructors of the ten types; those of the types whose text the reader does not accept count as unknown.
- RedisRuns.StepKeeps: commands that the server answers more than once are not covered.
