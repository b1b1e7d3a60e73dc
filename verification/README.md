# Flowbot registry: a verified model

This project models the plugin registry of flowline-io/flowbot-registry in Dafny 4.11 and proves what its
code promises. It has five parts.

1. **The database and the publish transaction.** `Tables` holds the five tables with their unique indexes,
   foreign keys and validators; `Store` the two adapters; `Publishing` the transaction of `upsertRecords`
   and the lookup that reads its result; `Registry` the view without ids, a map from (namespace, plugin,
   version) to a release, from (namespace, plugin) to a description and from namespaces to owners. `Server`
   interleaves any number of publishes statement by statement with each other and with the account calls;
   `Alone` proves that a publish nobody interferes with does there what the service's method does. `Runs` proves
   what every reachable database keeps and what the log of successful publishes means; `Races` proves what
   interleaving does to descriptions and which schedules leave a wrong one, and `StaleDescription` is such a
   schedule. `Gate` is the pair of handlers in front of the publish route.
2. **Refresh-token rotation.** `Accounts` holds register, login, refresh and token issue; `Sessions` their runs
   together with the purge, under a clock that never goes back. `AccountRuns` shows every such call, and every run of
   them, to be a run of the server machine.
3. **The login rate limiter.** `RateLimit`: the counter table, its cleanup loop, and the exact bound on what one
   address gets through.
4. **Deferred writes and joins of the ent layer.** `EdgeMutation`, `EagerLoad`, `BulkCreate`.
5. **What the command-line tool and the server share.** `Scopes`, `Refs`, `Oci`, `FormatSize`, and `PublishFlow`,
   which composes image, checks and transaction into one publish from the tool's files to the tables.

## Assumptions

- Every store call takes a flag, or a set of call sites, that says whether it fails for reasons outside the model.
  A failing statement and a failing commit change no table. A failing insert may still use up an id: in `Server`
  the event `Gap` moves the sequences forward at any moment, and nothing rewinds them.
- The database is PostgreSQL at its default isolation, read committed: a statement sees the committed rows and its
  own transaction's writes. In `Server` a statement that meets another open transaction's write to the same row or
  unique key changes nothing, which stands for waiting. Deadlock detection is one of the causes of `Fail`.
- `Store` and `Publishing` describe one publish alone against the tables as they were when it began; `Server` is the
  interleaved form of the same statements, and `Alone.AloneIsUpsert` with `Alone.OneOutcome` ties the two.
- In `Server` each transaction remembers how many publishes were committed when it looked its plugin up, and each
  log entry whether it wrote the plugin row. No step depends on either; they are there to be talked about.
- `Publishing` splits `upsertRecords` into its three get-or-create blocks, one method each.
- Hashing, password checks, token generation, JWT signing and YAML parsing are function parameters or inputs. Run
  results about tokens assume that a generated token hashes to a value no issued token has (`Sessions.Fresh`); that
  the clock never goes back is built into the event `Tick`. Account calls read the clock once and run as one step.
- Strings are sequences of characters. `len(password)` counts bytes, so a character stands for a byte there.
  Integers are unbounded except in `FormatSize`; times are integers. A nil map is an empty one.
- Pointers the source allocates afresh, such as the nodes of a query, are required to be distinct objects.

## Findings

- `plugins.namespace_id` has no foreign key (`internal/ent/migrate/schema.go:35`, the key sits on the unused column
  `namespace_plugins`). That it always names a namespace is a fact about the runs and is proved for all of them.
- Releases are serializable in commit order, descriptions are not: a publish that reads its own description writes
  none, so another publish that commits in between keeps its description under the later release. The table always
  holds the writing publishes in commit order (`Races.DescriptionsFollowWrites`); a commit leaves the wrong text
  exactly if it wrote none and the last publish to write that plugin since its look wrote another one
  (`Races.DescriptionRightIff`); two publishes by the namespace's owner through the gate suffice
  (`StaleDescription.DescriptionCanBeStale`).
- Nothing makes up for a failing delete in token rotation (`internal/service/auth_user.go:117-119`): a token just
  exchanged is accepted again if and only if its delete failed (`Sessions.ReusedIffDeleteFailed`), and a run that
  exchanges one token twice exists (`Sessions.ExchangedTwice`). A token whose own delete succeeded is refused for good,
  whatever other deletes do (`Sessions.NeverTwice`).
- The limiter admits at most `2 * max(1, maxRequests) - 1` requests of one address in any closed interval as long as
  its window, one less than two full windows, and that number is reached.
- A cleared edge keeps the ids added before the clear (`EdgeMutation.ClearEmptiesIff`). `ResetUser` does not take
  `ClearUser` back, because it leaves the cleared-field mark (`internal/ent/mutation.go:337-361`): the next save still
  removes the owner (`EdgeMutation.ResetUserUndoesIff`).
- The design document contradicts itself on tokens: `docs/superpowers/specs/2026-06-06-user-authentication-design.md:117`
  lets one be signed only for namespaces of the caller, while its line 123, like `internal/handler/routes.go:28`, speaks
  of pull-only tokens without a login. The code (`internal/service/service.go:101-118`) refuses only pushes to
  namespaces owned by someone else, and the model follows it. `Scopes.TokenAgreesIff` says exactly when it and the
  rule of line 117 agree, and `Scopes.StrangerMayPull` is a token signed against that rule.
- The tool cuts a trailing slash off the registry's URL (`cmd/cli/publish.go:92`), the server does not
  (`internal/service/service.go:287`). With such a URL the server stores, and an install pulls, another reference than
  the one the tool pushed to (`PublishFlow.PushedIsStoredIff`).
- The tool cuts the manifest's name at the first slash and the server at the last one
  (`pkg/manifest/template.go:148-154`, `internal/service/service.go:184-187`): a manifest whose name has two slashes
  can be pushed but not published by the tool (`PublishFlow.ToolPublishAcceptedIff`).

## Model

| member | source | states |
|---|---|---|
| Tables.Only | internal/ent/migrate/schema.go:14 | the "exactly one row" query on an index: the row found is the only one with that key, and NotFound means that there is none |
| Tables.KeyAdded | internal/ent/migrate/schema.go:55-61 | a row added under a key that no row has keeps the index unique and is then found by its key |
| Tables.NamespaceAccepted | pkg/store/store.go:147-165 | a namespace insert succeeds exactly for a non-empty name and type, an existing owner or 0, and a free name; it writes the given columns under the next id and nothing else |
| Tables.PluginAccepted | pkg/store/store.go:188-208 | a plugin insert succeeds exactly for a non-empty name that is free in its namespace, whose row is not looked for; it writes that one row |
| Tables.VersionAccepted | pkg/store/store.go:237-251 | a version insert succeeds exactly for a non-empty version and digest, an existing plugin and a version the plugin does not have; it writes that one row |
| Tables.UserAccepted | pkg/store/store.go:467-482 | a user insert succeeds exactly for a non-empty address and hash and an unknown address; it writes that one row |
| Tables.TokenAccepted | pkg/store/store.go:521-537 | a token insert succeeds exactly for a non-empty unknown hash and an existing user; it writes that one row |
| Tables.ExpiredDeleted | pkg/store/store.go:567-575 | exactly the tokens whose expiry has not passed stay, unchanged, and no other table changes |
| Tables.NamespaceInserted | pkg/store/store.go:147-165 | an accepted namespace insert keeps the database sound, takes a new id and is found by name |
| Tables.PluginInserted | pkg/store/store.go:188-208 | an accepted plugin insert under an existing namespace keeps the database sound although no foreign key checks it |
| Tables.VersionInserted | pkg/store/store.go:237-251 | an accepted version insert keeps unique keys and references and is found by plugin and version |
| Tables.UserInserted | pkg/store/store.go:467-482 | an accepted user insert keeps the database sound and is found by address |
| Tables.TokenInserted | pkg/store/store.go:521-537 | an accepted token insert keeps the database sound and is found by hash |
| Tables.PluginUpdated | pkg/store/store.go:210-220 | an update succeeds exactly for an existing plugin, sets its three texts and nothing else, keeps the database sound and changes no lookup |
| Tables.VersionUpdated | pkg/store/store.go:253-264 | overwriting a release succeeds exactly for an existing version and a non-empty digest, sets the release and nothing else, and keeps the database sound |
| Tables.TokensRemoved | pkg/store/store.go:558-575 | removing any tokens keeps the database sound |
| Store.Adapter.BeginTx | pkg/store/store.go:93-99 | a transaction starts with the committed tables as its view |
| Store.TxAdapter.Commit | pkg/store/store.go:102-104 | for a transaction that ran alone: the committed tables become its view, or stay as they were when the commit fails |
| Store.TxAdapter.Rollback | pkg/store/store.go:107-109 | the transaction is closed and the committed tables are untouched, also after a commit |
| Store.TxAdapter.NamespaceCreate | pkg/store/store.go:378-388 | one new row in the view and the next id, or no change and an error other than NotFound |
| Store.TxAdapter.PluginCreate | pkg/store/store.go:407-418 | one new row in the view and the next id, or no change and an error other than NotFound |
| Store.TxAdapter.PluginUpdate | pkg/store/store.go:421-428 | the three texts of the row change and nothing else, or nothing at all |
| Store.TxAdapter.PluginVersionCreate | pkg/store/store.go:444-453 | one new row in the view and the next id, or no change and an error other than NotFound |
| Store.TxAdapter.PluginVersionUpdate | pkg/store/store.go:456-463 | the release of the row changes and nothing else, or nothing at all |
| Store.Adapter.RefreshTokenDeleteByID | pkg/store/store.go:558-564 | removes exactly the one row, and fails when it is not there |
| Store.Adapter.RefreshTokenDeleteExpired | pkg/store/store.go:567-575 | removes exactly the rows whose expiry lies strictly before now and counts them |
| Store.Adapter.PluginVersionListByPlugin | pkg/store/store.go:267-282 | exactly the versions of the plugin with their ids, in strictly descending order of ids |
| Tables.ListingExact | pkg/store/store.go:268-271 | the query answers exactly the plugin's versions up to a bound, in strictly descending order of ids |
| Registry.ByNameWritten | internal/service/service.go:264-306 | writing a row under its name is one update of the view by names, and the row is new exactly when its name is |
| Registry.PluginNamesUnique | internal/ent/migrate/schema.go:55-61 | in a sound database distinct plugin rows have distinct (namespace, name) pairs |
| Registry.VersionNamesUnique | internal/ent/migrate/schema.go:86-92 | in a sound database distinct version rows have distinct names across the three tables |
| Registry.VersionWritten | internal/service/service.go:289-306 | a version row created or overwritten is one update of the release map at its key |
| Registry.PluginWritten | internal/service/service.go:273-285 | a plugin row created or updated is one update of the description map at its key |
| Registry.NamespaceWritten | internal/service/service.go:258-262 | a namespace row created is one new entry of the owner map |
| Registry.VersionRead | internal/service/service.go:339-342 | the third lookup finds a row exactly when the release map has the key, and reads the map's value |
| Registry.PathMissing | internal/service/service.go:328-345 | a key one of the three lookups misses is not in the release map |
| Publishing.NamespaceMade | internal/service/service.go:259-262 | creating the namespace succeeds exactly for a non-empty name and adds one unowned entry, nothing else |
| Publishing.PluginMade | internal/service/service.go:274-277 | creating the plugin succeeds exactly for a non-empty name and changes one description, nothing else |
| Publishing.PluginChanged | internal/service/service.go:282-286 | updating the description always succeeds and changes that one description |
| Publishing.VersionMade | internal/service/service.go:292-296 | creating the version succeeds exactly for a non-empty version and digest, and completes the publish with a new id |
| Publishing.VersionChanged | internal/service/service.go:301-306 | overwriting the version succeeds exactly for a non-empty digest and completes the publish with the old id |
| Publishing.PathCalls | internal/service/service.go:252-311 | which calls a publish makes: the begin, the three lookups and the commit always, and a create or an update exactly for each row that is missing or differs |
| Publishing.PublicationFields | internal/service/service.go:267-306 | the release holds the request's digest, the readme and the manifest each in its own column, and for a URL http://host or https://host the image reference host/namespace/name:version; for https:// unless the host itself begins with http:// |
| Publishing.PluginService.EnsureNamespace | internal/service/service.go:258-265 | succeeds exactly when the name is not empty and no call it makes fails; the view gains at most the namespace |
| Publishing.PluginService.EnsurePlugin | internal/service/service.go:267-286 | succeeds exactly when the name is not empty and no call it makes fails; the description is the requested one |
| Publishing.PluginService.PutVersion | internal/service/service.go:290-307 | succeeds exactly when version and digest are not empty and no call it makes fails; created says whether the key was new |
| Publishing.PluginService.UpsertRecords | internal/service/service.go:249-320 | succeeds exactly when the fields are valid and no call on its path fails; then the request's key holds its digest, the readme, the manifest and the image reference host/namespace/name:version, the plugin has the manifest's description, a new namespace is of kind user, a written plugin row has no display name and no logo, all other keys are unchanged and the ids are as allocated; on failure the committed tables are unchanged; repeating it at once changes nothing |
| Publishing.PluginService.GetPluginVersion | internal/service/service.go:328-345 | on fixed tables the three lookups by id read the release map back: found with its value exactly when the key is there |
| Runs.LookupIsCurrent | internal/service/service.go:328-345 | with any publishes and account calls between the three lookups, the answer is the release map's at the moment of the last lookup made |
| Publishing.PublishesCommute | internal/service/service.go:258-306 | two publishes to different plugins give the same releases, descriptions and owners in either order, while newly allocated ids differ between the orders |
| Server.ViewSound | internal/service/service.go:252-311 | merging what one open transaction has written into the committed tables gives a sound database |
| Server.DeltaStable | internal/service/service.go:252-311 | an open transaction's writes stay mergeable after another transaction commits |
| Server.PhaseStable | internal/service/service.go:258-306 | what a transaction has read stays usable after another transaction commits |
| Server.InvExec | internal/service/service.go:258-311 | every statement of a publish, interleaved anyhow, keeps the invariant |
| Server.CommitReleases | internal/service/service.go:309-311 | after a commit every plugin has a version |
| Server.CommitIsOneUpdate | internal/service/service.go:258-311 | the commit of an interleaved publish is one update of the release map, its created answer is right at that moment, and it adds the namespace only if there is none of that name |
| Server.InvNext | internal/service/service.go:258-311 | every event keeps the invariant, and no namespace, plugin, version or user row disappears or changes its key or owner |
| Runs.ReachableIsConsistent | internal/ent/migrate/schema.go:32-93 | every reachable committed database has unique keys, no dangling reference (including the one without a foreign key), no empty name, and a version for every plugin |
| Runs.SerialInCommitOrder | internal/service/service.go:289-311 | the release map of every reachable database is the initial one with the logged publishes applied in commit order |
| Runs.CreatedOnce | internal/service/service.go:289-319 | two successful publishes of one key answer the same ids, the later one with created = false, and created = true means the key was not there at the start |
| Runs.FailureChangesNothing | internal/service/service.go:252-311 | whatever step makes a publish fail, a call that fails or a statement that is refused, leaves tables, sequences and log alone and keeps none of its writes |
| Runs.FailAborts | internal/service/service.go:252-311 | a failing call ends the publish at whatever statement it is |
| Runs.FailedForGood | internal/service/service.go:252-311 | a publish that failed stays failed and is in no later log; every logged publish is a transaction of its own that has committed |
| Runs.PluginPageHasVersions | internal/web/handlers.go:82-93 | in every reachable database an existing plugin's list is not empty, so the empty-list branch is dead; it starts with the newest version and holds what is released under the plugin's name |
| Runs.ColumnsKept | internal/service/service.go:259-286 | in every run new namespaces are of kind user, and a plugin row is as at the start or has no display name and no logo |
| Runs.GatedExec | internal/service/service.go:258-262 | a publish let through by the gate never reaches the statement that creates a namespace |
| Runs.GateIsEnough | internal/middleware/auth.go:46-66 | in every run, a publish that passed the gate writes only under a namespace its caller owns, then and afterwards; owners never change |
| Runs.RoutedRunsKeepOwners | internal/handler/routes.go:32-42 | in runs of the routed steps every namespace has an owner and is named by the part of that owner's address before the first '@' |
| Races.DescriptionsFollowWrites | internal/service/service.go:273-286 | the descriptions of every reachable database are the initial ones with exactly the writing publishes applied in commit order |
| Races.ReadIsCommitted | internal/service/service.go:273-282 | a lookup that finds the requested description in place found the committed one |
| Races.DescriptionRightIff | internal/service/service.go:273-286 | in every run, a publish leaves the description it asked for exactly if it wrote the plugin row, or nobody wrote another one for the plugin between its look and its commit, or whoever did so last wrote the same text |
| Races.CommittedRightIff | internal/service/service.go:273-286 | the same read off the table right after the commit |
| StaleDescription.DescriptionCanBeStale | internal/service/service.go:282-286 | from a consistent database with an owned namespace, two interleaved gated publishes, built from manifests as the code builds them, end with the last commit's release and the other one's description |
| Alone.AloneIsUpsert | internal/service/service.go:249-320 | begun while nobody else holds a write, a publish in the interleaving machine commits within seven statements exactly when its fields are valid, meeting the relation of the service's method, and otherwise rolls back and leaves tables and log |
| Alone.OneOutcome | internal/service/service.go:249-320 | that relation determines the answered ids and the three views |
| Alone.StepsAreARun | internal/service/service.go:258-311 | those statements are a run of the machine |
| Gate.AuthRequired | internal/middleware/auth.go:16-40 | for every non-empty token t the header "Bearer t" passes exactly when t is valid, and the caller is then the one t names; any other header is refused and sets no caller |
| Gate.GateIsOwnership | internal/middleware/auth.go:46-66 | what the gate asks for is exactly that the namespace exists and belongs to the caller |
| Gate.RequireNamespace | internal/middleware/auth.go:46-66 | passes exactly when there is a caller and the namespace is found and owned by that caller; 401 exactly without a caller |
| Gate.PublishRoute | internal/handler/routes.go:32-42 | for every non-empty token t the header "Bearer t" lets the publish begin, as the caller t names, exactly when t is valid and that caller owns the namespace; any other header never does; where it does, the server machine enables the publish |
| Accounts.UserService.IssueTokens | internal/service/auth_user.go:137-160 | stores one token row for the user with its hash and expiry, or answers an internal error and changes nothing |
| Accounts.UserService.RegisterUser | internal/service/auth_user.go:52-75 | the three statements in order with their error classes; a failing namespace insert does not stop the registration |
| Accounts.UserService.LoginUser | internal/service/auth_user.go:78-92 | unknown address and wrong password are refused alike; a grant is for the user with this address and for the right password only; a refusal changes nothing |
| Accounts.UserService.RefreshToken | internal/service/auth_user.go:96-127 | looks the token up by hash, removes it also when it is expired, goes on when the removal fails, and issues a token to its owner |
| Accounts.Issues | internal/service/auth_user.go:137-160 | tokens are issued exactly when both can be generated and the store takes the new hash, with one row of that user, hash and lifetime; otherwise nothing changes |
| Accounts.Logins | internal/service/auth_user.go:78-92 | a login issues tokens to the user with this address exactly when the password is right; a wrong password and an unknown address are unauthorized and change nothing |
| Accounts.Registers | internal/service/auth_user.go:52-75 | exactly a long enough password and a new address create the user with the hashed password, whatever fails later, and the namespace of the local part if that name is free; then tokens are issued to that user |
| Accounts.Refreshes | internal/service/auth_user.go:96-127 | a known token is removed exactly when its delete succeeds, also when it has expired or its owner cannot be read; only an unexpired one gets new tokens, for its owner |
| Text.LocalPartCut | internal/service/auth_user.go:163-170 | the namespace of an address is what stands before the first @, or all of it |
| Sessions.RefreshGranted | internal/service/auth_user.go:96-127 | a successful refresh answers for the owner of an unexpired token, whose row stays exactly when its delete failed |
| Sessions.BooksNext | internal/service/auth_user.go:96-160 | every step, failing calls included, keeps each live row equal to the token issued under its id and each successor with the owner of its exchanged parent |
| Sessions.LiveIsIssuedLessSpent | internal/service/auth_user.go:96-160 | in every run, failing calls and deletes included, the live rows are those issued less those spent (exchanged and deleted by that), lost and expired, and no token is two of these |
| Sessions.ExchangedIsSpent | internal/service/auth_user.go:103-119 | an exchanged token is spent if its own deletes succeeded, whatever other deletes did |
| Sessions.NeverTwice | internal/service/auth_user.go:103-119 | a token that was exchanged with its own delete succeeding is refused ever after, whatever else fails, as unauthorized unless the lookup itself fails |
| Sessions.ReusedIffDeleteFailed | internal/service/auth_user.go:117-119 | presented again at once, an exchanged token is accepted if and only if its delete failed |
| Sessions.ExchangedTwice | internal/service/auth_user.go:117-119 | a concrete run from login on exchanges one token twice because a delete fails |
| Sessions.ChainKeepsUser | internal/service/auth_user.go:121-126 | whatever fails, every token of a rotation chain belongs to the user of its root |
| Sessions.RootsAreEarned | internal/service/auth_user.go:52-92 | in every run, whatever fails, a token not exchanged for another one was handed out to a login with that user's address and the right password, or to the registration that created the user |
| Sessions.OneLivePerChain | internal/service/auth_user.go:96-127 | a rotation chain has at most one live token if the deletes of its own exchanges succeeded, whatever fails in other chains |
| Sessions.TwinNext | internal/service/auth_user.go:101-126 | tables that differ in expired tokens only give the same answer to every call and still differ in expired tokens only |
| Sessions.PurgesAreInvisible | pkg/store/store.go:567-575 | purging at any moments changes no answer of the run, even when calls and deletes fail |
| AccountRuns.CallIsRun | internal/service/auth_user.go:52-160 | every account call, whatever fails in it, does to the tables what a series of the server machine's single statements does |
| AccountRuns.SessionIsRun | internal/service/auth_user.go:52-160 | every run of account calls and purges is a run of the server machine, so its theorems hold there |
| RateLimit.Limiter.Request | internal/middleware/ratelimit.go:36-59 | admits exactly when the address has no running window or its count stays within the limit; charges that address and no other |
| RateLimit.Limiter.Cleanup | internal/middleware/ratelimit.go:22-34 | removes exactly the counters whose window has run out |
| RateLimit.SameCounter | internal/middleware/ratelimit.go:22-59 | of an address's counter, cleanups and other addresses only ever drop what has run out |
| RateLimit.DecidedAlone | internal/middleware/ratelimit.go:36-59 | the decisions for one address are those of a single counter run on that address's requests alone |
| RateLimit.CleanupIsInvisible | internal/middleware/ratelimit.go:22-34 | a limiter that never cleans up takes the same decisions |
| RateLimit.CleanupKeepsRunning | internal/middleware/ratelimit.go:22-34 | after a cleanup the table holds exactly the addresses with a running window, each with the counter its own requests give |
| RateLimit.SoloBound | internal/middleware/ratelimit.go:43-56 | a single counter admits at most 2 * max(1, maxRequests) - 1 requests in any closed interval as long as its window |
| RateLimit.AtMostTwoWindows | internal/middleware/ratelimit.go:36-59 | the same bound for one address in every run with interleaved cleanups and other addresses |
| RateLimit.BoundIsReached | internal/middleware/ratelimit.go:43-56 | a concrete run reaches the bound for every limit and every positive window |
| EdgeMutation.NamespaceMutation.AddPluginIDs | internal/ent/mutation.go:283-290 | the record gains the added ids and keeps its removals |
| EdgeMutation.NamespaceMutation.RemovePluginIDs | internal/ent/mutation.go:303-311 | the ids leave the additions and join the removals |
| EdgeMutation.BuildSpec | internal/ent/namespace_update.go:178-265 | the update carries the set fields, the edge clears and the edge adds of the record, with no clear for an empty removal |
| EdgeMutation.SqlSave | internal/ent/namespace_update.go:174-275 | a save that passes its check and does not fail leaves (old less removed, or nothing if cleared) plus added, the recorded owner, name and type, and marks the record done; otherwise nothing changes |
| EdgeMutation.SpecsMean | internal/ent/namespace_update.go:192-236 | the edge clears and adds that are built mean the recorded change of the plugins edge, in particular no clear without nodes is built for an empty removal |
| EdgeMutation.UserSpecsMean | internal/ent/namespace_update.go:237-265 | the built clears and adds mean the recorded change of the owner, where a user that is set counts even after a clear |
| EdgeMutation.NamespaceMutation.ClearUser | internal/ent/mutation.go:337-340 | both marks are set and a user that was set stays |
| EdgeMutation.NamespaceMutation.ResetUser | internal/ent/mutation.go:358-361 | the user and the edge's mark go, the cleared-field mark stays |
| EdgeMutation.ResetUserUndoesIff | internal/ent/mutation.go:337-361 | after any calls, resetting the edge takes the recorded change of an owner back if and only if user_id is not among the cleared fields |
| EdgeMutation.ResetUserIDUndoesIff | internal/ent/mutation.go:265-280 | likewise for resetting the field and the edge's mark |
| EdgeMutation.SetUserSaves | internal/ent/mutation.go:234-361 | a user that is set is saved, also when the edge is cleared after it, while clearing the field takes it back |
| EdgeMutation.RecordMeans | internal/ent/mutation.go:283-334 | the record stands for the calls since the last reset |
| EdgeMutation.SaveIsSequential | internal/ent/mutation.go:283-334 | a save equals the adds and removes since the last reset applied one by one to the old edge, or to the empty one if a clear was among them |
| EdgeMutation.SaveSteps | internal/ent/mutation.go:283-334 | what each further call does to the saved edge: an add joins its ids, a removal takes them away, a clear makes it the edge saved from nothing, a reset restores the old edge |
| EdgeMutation.ClearEmptiesIff | internal/ent/mutation.go:293-295 | clearing and saving empties the edge if and only if nothing was left to add |
| EdgeMutation.AddSurvivesClear | internal/ent/mutation.go:283-295 | a plugin added before a clear is in the saved edge |
| EagerLoad.IndexNodes | internal/ent/plugin_query.go:412-420 | the key list in node order, and the map from each key to the last node that has it |
| EagerLoad.LoadVersions | internal/ent/plugin_query.go:411-440 | succeeds exactly when every row's key was asked for; then the last node of each id holds that id's rows in order |
| EagerLoad.MatchingParts | internal/ent/plugin_query.go:432-438 | the rows of a key are taken row by row and in order |
| EagerLoad.DistinctJoin | internal/ent/plugin_query.go:411-440 | with distinct ids this is the nested-loop join |
| EagerLoad.NothingLost | internal/ent/plugin_query.go:432-438 | distinct ids or not, no row is lost and none is given twice |
| EagerLoad.GroupByOwner | internal/ent/namespace_query.go:481-492 | the owner ids without duplicates, and the namespaces grouped by owner |
| EagerLoad.LoadUser | internal/ent/namespace_query.go:480-511 | queries a duplicate-free list of exactly the owners, queries nothing if there is none, and assigns the user to every namespace that shares it |
| EagerLoad.FoundIs | internal/ent/namespace_query.go:500-510 | the user a namespace gets is the last row with its owner's id, or none if there is none |
| BulkCreate.NamespaceCreate.Check | internal/ent/namespace_create.go:109-127 | passes exactly for a non-empty name and a non-empty type |
| BulkCreate.NamespaceCreate.SetID | internal/ent/namespace_create.go:50-54 | the row then carries this id, 0 included, and is otherwise as before |
| BulkCreate.NamespaceCreate.CreateSpec | internal/ent/namespace_create.go:149-197 | row and node carry the fields that are set and defaults for the others |
| BulkCreate.NamespaceCreate.SpecFields | internal/ent/namespace_create.go:149-197 | that row holds the id, name, type, plugins and user that are set, and the node the same with id 0 for none |
| BulkCreate.NamespaceCreateBulk.Mutate | internal/ent/namespace_create.go:218-250 | the chain from builder i on writes one batch of all rows exactly when all remaining checks pass, and marks all remaining records or none |
| BulkCreate.NamespaceCreateBulk.Save | internal/ent/namespace_create.go:210-265 | one batch with all rows in builder order exactly when the list is not empty and every check passes, otherwise none; all records done and numbered on success, none touched on any error |
| Scopes.ParseScopes | internal/service/service.go:35-66 | the loop computes the recursive parse, and one malformed part refuses the whole |
| Scopes.ParsedIsCanonical | internal/service/service.go:41-63 | everything the parser accepts is in canonical form |
| Scopes.RoundTripIff | internal/service/service.go:35-66 | printing and parsing gives the scopes back if and only if all are canonical: no colon in type or name, at least one action, no comma in an action, no blank, no outer white space |
| Scopes.ParseIsStable | internal/service/service.go:35-66 | whatever is accepted is accepted again when printed, with the same result |
| Scopes.ParsesIff | internal/service/service.go:35-66 | a text is accepted exactly when each part that is not blank has two colons, and the scopes print as those parts |
| Scopes.CliScopeUnderstood | cmd/cli/auth.go:74 | the tool's scope parses to what it means if and only if the reference holds no colon and no blank |
| Scopes.AuthService.IssueJWT | internal/service/service.go:81-127 | reaches signing exactly when the scope parses and every namespace is found and allows the access; the access list is then all scopes in order, each of them allowed |
| Scopes.SignedIff | internal/service/service.go:81-127 | a list of canonical scopes is signed, all of it, exactly when the lookup of every one succeeds and gives access; otherwise it is forbidden; a text that does not parse is an invalid scope |
| Scopes.AccessIff | internal/service/service.go:88-118 | in a sound database a scope gives access exactly if its namespace exists and, when it pushes, has no owner or the caller as its owner |
| Scopes.NamespaceCut | internal/service/service.go:88-91 | the namespace looked up is what stands before the first slash of the name, or all of it |
| Scopes.TokenAgreesIff | internal/service/service.go:101-118 | for every scope, the code's rule and the owner-only rule agree except where the namespace exists, is not the caller's, and is unowned or the scope does not push |
| Scopes.StrangerMayPull | internal/service/service.go:101-118 | a concrete pull scope on a namespace of another user is signed |
| Scopes.TokensOnRoutedRuns | internal/service/service.go:90-118 | in every database reachable by the routed steps a scope is allowed exactly if its namespace exists and, when it pushes, the gate lets the caller publish there |
| Refs.AcceptedPrintsBack | cmd/cli/register.go:76-90 | every reference the register parser accepts prints back to itself, with no slash in the namespace and no colon in the version |
| Refs.RegisterRoundTripIff | cmd/cli/register.go:76-90 | printing then parsing is the identity if and only if the namespace has no slash and the version no colon |
| Refs.InstallAgrees | cmd/cli/install.go:93-112 | the install parser reads every accepted reference as the same triple |
| Refs.InstallRoundTripIff | cmd/cli/install.go:93-112 | the same round trip for the install parser, under the same condition |
| Refs.LatestIff | cmd/cli/install.go:96-109 | a reference without version means "latest" if and only if no colon can be taken for one |
| Refs.DefaultNamespaceIff | cmd/cli/install.go:96-109 | name:version is read with the default namespace if and only if the name has no slash and the version no colon, and name alone as its latest version if and only if it has neither |
| Refs.PluginNameIff | pkg/manifest/template.go:148-154 | namespace/name is cut as meant if and only if the namespace has no slash, and a name alone is put into the default namespace if and only if it has none |
| Refs.NamesAgreeIff | pkg/manifest/template.go:148-154 | the tool's name equals the server's base name if and only if the full name has at most one slash |
| Refs.NamesPart | internal/service/service.go:184-187 | a/b/c is b/c for the tool and c for the server |
| Oci.ReadAllTarGzLayer | pkg/oci/client.go:150-182 | the entries of a layer by base name, later ones over earlier ones |
| Oci.ReadTarGzLayer | pkg/oci/client.go:184-218 | the same, restricted to the wanted names |
| Oci.ExtractLayers | pkg/oci/client.go:82-119 | the requested files in the requested order out of all layers, later layers winning and undecodable ones passed over; an error exactly when one is missing |
| Oci.ExtractAllLayers | pkg/oci/client.go:122-148 | every file of the image once |
| Oci.ExtractIsProjection | pkg/oci/client.go:82-148 | the named extraction is the projection of the full one and fails exactly when the full one lacks a name |
| Oci.OverlayLastWins | pkg/oci/client.go:94-108 | reading layer by layer gives, for each base name, its last readable entry, and nothing else |
| Oci.PushArtifact | pkg/oci/pusher.go:57-80 | one layer a file in order; an error exactly for no files or a failing step |
| Oci.PushedThenRead | pkg/oci/pusher.go:57-80 | extracting what was pushed gives the files by base name, the last one winning |
| Oci.FetchOCILayers | internal/service/service.go:212-247 | the manifest must be in the image; a missing readme is empty |
| PublishFlow.CollectFiles | cmd/cli/publish.go:172-181 | the manifest, then the artifacts, then the readme if there is one |
| PublishFlow.BuildAndPush | cmd/cli/publish.go:140-196 | an image already under the reference is kept and nothing is built or pushed; otherwise the collected files are pushed, one layer a file |
| PublishFlow.ImageReadBack | cmd/cli/publish.go:172-181 | out of the tool's image the server reads the last artifact called plugin.yaml, or the tool's manifest if there is none, and the tool's readme, or else the last artifact called README.md, or else nothing; every other name holds its last artifact |
| PublishFlow.ManifestReadBackIff | cmd/cli/publish.go:172-181 | the server reads the tool's own manifest if and only if the last artifact of that base name, if any, has the same content |
| PublishFlow.ToolPublishAcceptedIff | internal/service/service.go:158-193 | when the tool pushed its image (PublishFlow.BuildAndPush: none was there before), the server accepts exactly if the manifest it reads parses, has the tool's version and ends in the name sent; if that is the tool's own, as it is whenever the last artifact called plugin.yaml has the same content, exactly if its name has at most one slash |
| PublishFlow.ToolRequestIff | cmd/cli/publish.go:85 | the tool asks for the namespace and name of the manifest if and only if the namespace has no slash |
| PublishFlow.PushedIsStoredIff | cmd/cli/publish.go:92 | the server stores the reference the tool pushed to if and only if the registry's URL does not end in a slash |
| PublishFlow.Publisher.Publish | internal/service/service.go:158-210 | succeeds exactly when the image is accepted, the fields are valid and no call fails; then the request's key holds its digest, the image's readme, the five fields of the image's manifest and the image reference host/namespace/name:version, where the lookup reads them; otherwise the tables stay |
| FormatSize.NestedDivision | cmd/cli/publish.go:204 | dividing by div and then by 1024 is dividing by 1024 * div |
| FormatSize.FormatSize | cmd/cli/publish.go:198-209 | from 1024 on: div = 1024^(exp + 1), div <= size < 1024 * div, exp within the unit list, no 64-bit overflow; below 1024, negative sizes included, the byte form |
| FormatSize.UnitIsUnique | cmd/cli/publish.go:204-208 | the bounds determine the unit |

## Left out

- Sessions.NeverTwice: refreshes are atomic and the token's own delete succeeded, because the code neither checks the delete nor uses a transaction; Sessions.ReusedIffDeleteFailed says what a failing one does.
- Interleaved refreshes of one token, which the code does not guard against.
- Stricter isolation levels of the database than read committed.
- EdgeMutation.SqlSave: updates a single namespace; a constraint error of the edge tables is one of the failures.
- Store.TxAdapter.Commit: installs the whole view, which is right for a transaction that ran alone; the commit that merges its rows into what others committed meanwhile is Server.CommitIsOneUpdate.
- EagerLoad.LoadVersions: the foreign keys are compared and the query's own filtering is an input; loadPlugins has the same loops and one more nil check.
- BulkCreate.NamespaceCreateBulk.Save: no hooks; a row that brings its own id keeps it, and the 64-bit form in which the library hands ids back is not part of this model.
- Oci.PushArtifact: annotations, media types and the upload are one possible failure; entry names that tar itself would refuse are not modelled.
- FormatSize.FormatSize: the printed quotient is floating point and not modelled; int is the 64-bit one.
- HTTP handlers, request validation, configuration, templates, logging and the other command-line commands.
- RSA and JWT signing, bcrypt, SHA-256, cosign, and the bytes of tar, gzip and the registry protocol.
- SQL generation: it is only assumed that edge clears come before adds and that a save may fail.
- Plugin listings page by page: their queries have no ordering clause, so the code does not decide the pages.
- The generated code of the other entities, which repeats the patterns modelled here.
