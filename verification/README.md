# Ghostman store, verified model

Ghostman is a sync server for API projects: folder trees with requests, teams
with per-project access, rate limits, and captured webhooks. This project models
its transactional core in Dafny and proves what that core keeps:

- **Project tree** (`Tables`, `Tree`, `Ordering`, `Outcomes`, `Store`,
  `Interleaving`, `Reordering`).
  Folders and requests share the columns the tree logic touches, so one row type
  and a `Kind` serve both; `parent` is `parent_id` or `folder_id`. `Outcomes` says
  what each operation promises, one exact case per outcome; `Store` holds the
  transactions as methods that run alone and keep those promises; `Interleaving` runs them all at
  once, one SQL statement per step, each transaction with its program counter
  and the project lock held from `LockProject` to commit; a transaction nobody
  interrupts there does what its `Store` method does. `Reordering` says what a
  reorder amid other traffic fixes and for how long.
- **Rate limiter** (`RateLimit`). The class with its sweep, and runs of it.
- **Teams** (`Teams`, `Invitations`). Memberships, grants and invitations with
  handlers run one at a time, and the answers to invitations under interleaving.
- **Webhooks** (`Captures`, `Quota`). Retention, the polling cursor, the quota.
- **Validators** (`Json`, `RequestBody`, `NodeProxy`) and **`ShellQuote`**.

Verify everything with `dafny verify dfyconfig.toml`.

## Assumptions

- Each SQL statement is atomic on committed tables, and a transaction's last
  write and its commit are one step. A statement that appends a row is two
  steps, reading the position and writing it, so that others may commit in
  between and creates may tie. Ids from `gen_random_uuid()` are never repeated,
  not even after a delete (`issued`).
- `LockProject` on a project that is gone matches no row: no error, no lock.
- An insert that breaks the project's and the parent's foreign key at once
  reports the project's, the one declared first.
- `float64` is `real`: every float64 value is a model value, but results of
  arithmetic are not rounded. Instants are whole nanoseconds; the clock does not
  run backwards between calls, since it is read under the mutex; rate > 0,
  burst >= 1.
- Captures commit in id order, one at a time.
- `uuid.Parse` is a parameter; JSON starts as a parsed value, characters are
  Unicode scalar values.

## Where the documents and the code differ

The repository's README.md:276-278 and the comment at
internal/db/migrations/20260813054612_projects.sql:23-25 say that turning
`all_projects` off restores a previously configured list. The code clears the
list whichever way the flag goes (internal/db/store.go:109-120):
`TogglingForgetsTheList` proves that afterwards the list is the one sent, so an
earlier one comes back only by being sent again, and `TogglingExample`
runs the handlers to a state where a list configured from both sides is lost.

The comment at internal/db/folders.sql.go:245 says that a reorder validates and
writes against the same sibling set. Inserts take no lock that the reorder
holds, so a row created between the check and the write joins the group:
`CommittedReorderFixesOrder` proves that the group then lists as submitted if
and only if no row joined in between, and `CreatedMeanwhileSplitsTheList` runs to
a state where the new row even lands among the submitted ones. A create that has
read its position before the commit can do the same after it
(`ReadBeforeCommitSplitsTheList`).

A client that returns exactly `Retry-After` seconds after a refusal can be
refused again, because `wait` is truncated to whole nanoseconds.
`HeaderHonoured` says exactly when, and `HeaderTooEarly` gives a run of the
server's own sign-in limiter, whose rate is the float64 nearest to 5/60: ten
calls at once, one two seconds later that is told ten seconds, and a refusal ten
seconds after that. Rounded arithmetic agrees on this run: the levels are
0.16666666666666666 and 0.9999999999999999. What holds with room for rounding:
a limiter faster than one token a second, such as the capture limiter, always
asks for one second and honours it (`FastLimiterHonours`). With any limiter one
nanosecond past the header is enough (`PastHeaderAllowed`); that nanosecond
outweighs rounding only while it earns more than float64 can resolve, so not for
rates far below one token in a million seconds. `WholePeriodHonours` is a
statement of exact arithmetic only.

## Model

| member | source | states |
|---|---|---|
| `Interleaving.EveryFolderReachesRoot` | internal/db/folders.go:35-86 | in every interleaving of moves, creates, deletes, reorders and proxy updates over all projects, following parent_id from any folder reaches the root, and no folder is its own ancestor |
| `Interleaving.ReferencesStayInProject` | internal/api/node_proxy.go:117-138 | in every interleaving, each row's project is live, its parent and its proxy are live rows of that same project, and a proxy id comes only with mode proxy |
| `Reordering.CommittedReorderFixesOrder` | internal/db/folders.go:99-131 | a reorder committed amid other traffic: the listing after the commit shows the submitted rows in the submitted order, no other row changed, and the group lists as exactly the submitted list if and only if no row joined it since the check |
| `Reordering.CommittedOrderLasts` | internal/db/folders.sql.go:14-21 | over any later traffic that does not reorder the group, place a row in it explicitly or append one of its rows again, the submitted rows that are left list in the submitted order, and every row that joined since the commit comes after all that were there, except rows of creates that at the commit had read a position in the group which some row of it is not before |
| `Reordering.LateRowsLandBefore` | internal/db/folders.sql.go:56-59 | the exception is exact: the row of such a create, once written, lists before the row it was not behind while both stay undisturbed, and on equal positions created_at decides |
| `Reordering.ReadBeforeCommitSplitsTheList` | internal/db/folders.sql.go:35-59 | a run that needs the exception: the reorder lists as submitted at its commit, and a row whose position was read before lands in the middle afterwards |
| `Reordering.CreatedMeanwhileSplitsTheList` | internal/db/folders.sql.go:231-245 | a run in which a folder created between the check and the write ends up in the middle of the submitted list |
| `Interleaving.StepKeeps` | internal/db/store.go:177-195 | one statement of any transaction, or any unlocked delete, create or drop, keeps the whole invariant, including what the transactions in flight rely on |
| `Interleaving.MoveCommitKeeps` | internal/db/folders.go:70-80 | the final write of a move keeps the forest acyclic and every other transaction's finished checks valid, because only the lock holder of a project moves there |
| `Interleaving.TxnStable` | internal/db/projects.sql.go:261-276 | a transaction that did not act keeps its assertion: a finished ancestor walk and a locked sibling list survive every step of the others |
| `Interleaving.LockKeeps` | internal/db/projects.sql.go:268-276 | taking, waiting for, or missing the project lock keeps the invariant |
| `Interleaving.CreateKeeps` | internal/db/folders.go:153-173 | check, read the position, insert, all without a lock, keeps the invariant; the foreign keys cover the gaps |
| `Interleaving.DeleteKeeps` | internal/db/folders.sql.go:94-103 | an unlocked cascade at any moment keeps the invariant and cannot invalidate a finished walk |
| `Interleaving.PatchKeeps` | internal/db/folders.sql.go:286-287 | a proxy update checked outside any transaction keeps the invariant |
| `Interleaving.DropProxyKeeps` | internal/db/migrations/20261023054104_proxies.sql:48-56 | deleting a proxy nulls the ids that named it and keeps the invariant |
| `Interleaving.DropProjectKeeps` | internal/db/projects.sql.go:87-96 | deleting a project, which waits for its lock, keeps the invariant |
| `Store.TreeStore.Move` | internal/db/folders.go:38-86 | exactly when a move is refused as not found, bad parent, cycle or without a position left; otherwise the row gets its new parent and position, every other column, row and table stays, and a forest stays a forest |
| `Outcomes.MoveKeepsPromise` | internal/db/requests.go:48-87 | the same for the result the interleaved move ends with: any live folder of the project that is not below the moved one is accepted |
| `Store.MoveAloneMatches` | internal/db/requests.go:48-87 | the uninterrupted steps of the interleaved move are one atomic step with the store method's outcome and tables, and leave no lock |
| `Store.ReorderAloneMatches` | internal/db/folders.go:92-131 | the same for the steps of a reorder |
| `Store.CreateAloneMatches` | internal/db/folders.go:153-173 | the same for the steps of a create |
| `Store.PatchAloneMatches` | internal/api/node_proxy.go:117-138 | the same for the steps of a proxy update |
| `Store.DeleteRuns` | internal/db/folders.sql.go:94-103 | an interleaved delete waits exactly while a reorder has selected a row it would remove, and otherwise keeps its promise at once |
| `Store.DropProjectRuns` | internal/db/projects.sql.go:87-96 | an interleaved project delete waits exactly for a holder of its lock, and otherwise keeps its promise at once |
| `Store.DropProxyRuns` | internal/db/migrations/20261023054104_proxies.sql:48-56 | an interleaved proxy delete keeps its promise at once |
| `Store.GoneAtWrite` | internal/db/folders.go:162-170 | a parent or proxy that went away before the write is reported as a bad target, except by a folder move; a project that went away is an unexpected error |
| `Store.TreeStore.Reorder` | internal/db/requests.go:93-133 | exactly when a reorder is refused; otherwise row k of the list gets position k, or k + 1 for folders, nothing else changes, and the group lists as exactly the submitted ids |
| `Outcomes.ReorderKeepsPromise` | internal/db/folders.go:99-131 | the same for the result the interleaved reorder ends with |
| `Store.TreeStore.Create` | internal/db/folders.go:155-173 | exactly when a create is refused; otherwise the whole new row, last in every listing, and the others keep their order |
| `Outcomes.CreateKeepsPromise` | internal/db/requests.go:26-41 | the same for the result the interleaved create ends with: any live folder of the project is accepted |
| `Outcomes.NextOrderIsNextFree` | internal/db/folders.sql.go:41-46 | read on the rows: 0 without siblings, one past the largest position among them, an error at the int32 maximum |
| `Store.TreeStore.UpdateProxy` | internal/db/folders.sql.go:286-287 | exactly when a proxy update is refused; otherwise the row holds the mode and the id sent, its other columns and all other rows stay |
| `Outcomes.PatchKeepsPromise` | internal/db/requests.sql.go:332-333 | the same for the result the interleaved proxy update ends with |
| `Store.TreeStore.Delete` | internal/db/folders.sql.go:99-103 | a folder delete removes exactly the folders from which a chain of parents leads to it and the requests in them, a request delete that request; every other row is unchanged |
| `Outcomes.DropProxyKeepsPromise` | internal/db/migrations/20261023054104_proxies.sql:48-56 | a dropped proxy's id is nulled where it stood, modes and all else stay |
| `Outcomes.DropProjectKeepsPromise` | internal/db/projects.sql.go:87-96 | a dropped project takes exactly its own rows with it |
| `Store.CycleRefusedExactly` | internal/db/folders.go:31-33 | the cycle check refuses a parent exactly when the move would close a loop |
| `Store.MoveAppendsLast` | internal/db/folders.sql.go:375-388 | a move without a position lands strictly last among its new siblings, itself not counted |
| `Store.ListSiblings` | internal/db/folders.sql.go:231-238 | a listing holds exactly the rows with that project and parent, ordered by sort_order then created_at |
| `Tree.IsDescendant` | internal/db/folders.sql.go:144-175 | the recursive query ends on every parent map, cyclic and dangling ones too, and is true exactly when some parent path leads from the folder to the root |
| `Tree.DeleteFolder` | internal/db/migrations/20260925085121_folders.sql:8-11 | the downward cascade removes exactly the folders whose upward walk meets the root and the requests filed in them; every other row is unchanged |
| `Tree.ReparentKeepsForest` | internal/db/folders.go:57-68 | re-parenting under a folder whose ancestors do not include the moved one keeps every chain finite |
| `Tree.ReparentBelowItselfLoops` | internal/db/folders.go:35-37 | re-parenting under a descendant does detach the folder from the root |
| `Tree.AcyclicHasNoLoop` | internal/db/folders.go:31-33 | a table where every chain ends has no folder among its own ancestors |
| `Tables.SelectNextOrder` | internal/db/folders.sql.go:41-46 | the append position: 0 in an empty group, else one past the maximum, an error at the int32 maximum |
| `Tables.NextOrderUnique` | internal/db/requests.sql.go:45-50 | that query has one answer |
| `Ordering.CheckSameIdSet` | internal/api/projects.go:332-359 | accepts exactly the lists naming every wanted id once and nothing else; a refusal names the first id at fault |
| `Ordering.AcceptedIffPermutation` | internal/api/projects.go:335-359 | against primary keys, acceptance is being a permutation |
| `Ordering.ReorderYieldsList` | internal/db/folders.sql.go:14-21 | after an accepted reorder, 1-based or 0-based, sorting the group gives exactly the list and nothing else changed |
| `Ordering.ReorderFixesOrder` | internal/db/requests.sql.go:16-23 | with further rows in the group, the named rows still list in the given order |
| `Ordering.ListsAsSubmittedIff` | internal/db/folders.sql.go:14-21 | after the bulk write the group lists as the submitted list if and only if the list names the whole group |
| `Ordering.AppendLandsLast` | internal/db/requests.sql.go:443-456 | a row placed by the append query is the last entry of every listing and the rest of the listing is the old one |
| `Ordering.AppendFailsOnlyAtMaximum` | internal/db/requests.sql.go:45-50 | appending fails exactly when a sibling holds the int32 maximum |
| `RateLimit.Limiter.constructor` | internal/ratelimit/ratelimit.go:37-46 | a new limiter holds no bucket and has never swept |
| `RateLimit.Limiter.Allow` | internal/ratelimit/ratelimit.go:53-78 | decision, wait and new state are the specified ones |
| `RateLimit.Limiter.Sweep` | internal/ratelimit/ratelimit.go:80-93 | exactly the full buckets go, at most once per interval |
| `RateLimit.SweptExact` | internal/ratelimit/ratelimit.go:80-93 | at most once a minute, and exactly the buckets refilled to the burst go |
| `RateLimit.CallStamps` | internal/ratelimit/ratelimit.go:61-78 | a call leaves the key's bucket with the refilled level, less one if allowed, stamped now, and no other bucket touched |
| `RateLimit.ExactLaw` | internal/ratelimit/ratelimit.go:55-78 | a call is refused if and only if, with it, the calls since some earlier allowed one of its key would exceed burst + rate * elapsed |
| `RateLimit.WindowBound` | internal/ratelimit/ratelimit.go:4-6 | no window admits more than burst + rate * length calls of a key |
| `RateLimit.LevelFromHistory` | internal/ratelimit/ratelimit.go:61-68 | the stored level of a key is a function of its allowed calls alone, whatever other keys, refusals and sweeps came between |
| `RateLimit.AvailableIsTightest` | internal/ratelimit/ratelimit.go:67-73 | that level is the tightest of the bounds set by the allowed calls |
| `RateLimit.SweepUnobservable` | internal/ratelimit/ratelimit.go:80-93 | on every run the sweeping limiter and one that never sweeps give the same decision and wait at every call |
| `RateLimit.EarlyCallsRefused` | internal/ratelimit/ratelimit.go:75-77 | after a refusal, every call of the key earlier than the reported wait is refused |
| `RateLimit.LateCallAllowed` | internal/ratelimit/ratelimit.go:75-77 | the first call at least a nanosecond past the wait is allowed, however many refused calls came between |
| `RateLimit.RetryAfterSeconds` | internal/api/ratelimit.go:44-48 | the least whole number of seconds, at least one, not below the wait |
| `RateLimit.HeaderHonoured` | internal/api/ratelimit.go:33-40 | a client that waits exactly the header's seconds is refused again if and only if the wait is a positive whole number of seconds and truncation cut it short |
| `RateLimit.WholePeriodHonours` | internal/ratelimit/ratelimit.go:75-77 | in exact arithmetic, if a token takes a whole number of nanoseconds and the burst is whole, every Retry-After is honoured on every run |
| `RateLimit.FastLimiterHonours` | internal/api/capture.go:52-55 | a limiter faster than one token a second always asks for one second, waits no longer than one token takes, and lets the client in after that second |
| `RateLimit.PastHeaderAllowed` | internal/api/ratelimit.go:33-40 | with any limiter a return more than the header's seconds after the refusal is allowed |
| `RateLimit.HeaderTooEarly` | internal/api/server.go:65-66 | a run of the server's sign-in limiter, at the float64 rate it is built with, where the advertised ten seconds are too early |
| `RateLimit.BoundedMemory` | internal/ratelimit/ratelimit.go:15-17 | after any call every bucket held was used within sweepEvery + burst/rate and holds between 0 and burst tokens |
| `Teams.ReachableWorlds` | internal/api/project_access.go:47-206 | in every state reachable by handlers one at a time: grants name members, owners are members with all projects, one pending invitation per team and email, none for a member |
| `Teams.HandleKeeps` | internal/api/invitations.go:90-130 | every handler, whatever it answers, keeps that invariant |
| `Teams.HandlePromised` | internal/api/project_access.go:47-206 | for each of the twelve handlers, from every state: exactly when it succeeds, the refusals' meanings, and everything it changes and leaves |
| `Teams.RestrictedReach` | internal/db/projects.sql.go:118-139 | right after restricting a member to a list, from any state, they reach in the team exactly the list and what they own; no one else's reach changes |
| `Teams.RestrictedAfterAnyHistory` | internal/db/projects.sql.go:118-139 | hence at the end of every run of handlers that ends with the restriction |
| `Teams.SharedReach` | internal/api/project_access.go:47-90 | after replacing a project's list exactly its members with all projects, the two owners and the listed members reach it, all of them members; other projects are as before |
| `Teams.OwnerReachesAll` | internal/db/projects.sql.go:118-139 | the team owner reaches every project of the team, always |
| `Teams.RemovedReachesNothing` | internal/db/store.go:137-175 | a removed member reaches nothing in the team and keeps no grant row |
| `Teams.RemovedElsewhere` | internal/db/project_access.sql.go:44-58 | a removal changes nobody else's grants or reach, nor the leaver's in other teams |
| `Teams.AcceptedReachesAll` | internal/db/store.go:197-234 | whoever accepts starts with every project of the team, whatever an earlier membership was restricted to |
| `Teams.TurningOnClearsTheList` | internal/db/store.go:109-120 | turning all_projects on leaves the member no explicit grant in the team |
| `Teams.TogglingForgetsTheList` | internal/db/store.go:109-132 | turning all_projects off, from any state, makes the member's grants in the team exactly the list sent |
| `Teams.TogglingExample` | internal/db/store.go:84-88 | a run of handlers after which a project listed from both sides goes out of reach when the flag is turned off |
| `Teams.AllTeamMembersExact` | internal/api/project_access.go:208-227 | comparing the count with the length of the deduplicated list passes exactly for lists of members |
| `Teams.AllTeamProjectsExact` | internal/api/project_access.go:229-248 | the same for projects of the team |
| `Teams.DedupeUuids` | internal/api/project_access.go:250-263 | computes the first occurrences in order |
| `Teams.DedupeFacts` | internal/api/project_access.go:250-263 | those are the same ids, each once |
| `Teams.TeamStore.CreateTeamWithOwner` | internal/db/store.go:30-58 | both rows or neither |
| `Teams.TeamStore.ReplaceAccess` | internal/db/store.go:60-82 | the grant list of one project becomes the given one, others stay |
| `Teams.TeamStore.SetMemberAccess` | internal/db/store.go:84-135 | flag set; the user's grants in the team are then exactly the list sent, or none with the flag on; every other membership and grant stays |
| `Teams.TeamStore.RemoveMember` | internal/db/store.go:137-175 | the membership and the user's grants in that team go together, with the row count; every other membership and grant stays |
| `Teams.TeamStore.Accept` | internal/db/store.go:197-234 | status and membership change together or not at all |
| `Teams.Handlers.PutProjectAccess` | internal/api/project_access.go:47-90 | exactly when each reply is given; on success the project's grants are exactly the users sent and all else stays; keeps the invariant |
| `Teams.Handlers.PutMemberAccess` | internal/api/project_access.go:131-206 | exactly when each reply is given and everything a success changes; keeps the invariant; on a restriction everyone's reach is as `RestrictedReach` says |
| `Teams.Handlers.DeleteMember` | internal/api/members.go:18-78 | exactly when a removal succeeds; then that membership and the grants in that team go, all else and all other reach stays; keeps the invariant |
| `Teams.Handlers.PostInvitation` | internal/api/invitations.go:68-139 | exactly when each reply is given; on success one pending invitation more; keeps the invariant, so never a second pending one or one for a member |
| `Teams.Handlers.PostAccept` | internal/api/invitations.go:210-242 | exactly when each reply is given; on success the row is accepted and the caller a member, an existing membership untouched; keeps the invariant |
| `Teams.Handlers.PostReject` | internal/api/invitations.go:245-270 | the same for a reject, which joins nobody |
| `Teams.Handlers.DeleteInvitation` | internal/api/invitations.go:272-316 | exactly when each reply is given; on success that row is gone and every other stays; keeps the invariant |
| `Teams.RevokedIsGone` | internal/db/invitations.sql.go:44-47 | a revoked invitation cannot be accepted: not found |
| `Invitations.AnsweredAtMostOnce` | internal/db/invitations.sql.go:183-199 | in any interleaving of accept, reject and revoke at most one request answers an invitation, its caller is the addressee and it was pending |
| `Invitations.JoinedOnlyByWinning` | internal/db/store.go:204-234 | a user is a member afterwards exactly if they were before or their accept won |
| `Invitations.StatusTellsWinner` | internal/api/invitations.go:245-316 | a surviving row's status says whether anyone won and with which answer |
| `Invitations.AloneIsTheHandler` | internal/api/invitations.go:210-316 | an answer or revoke nobody interrupts replies and changes exactly what the handler does at once |
| `Captures.RetentionExact` | internal/db/webhooks.go:59-86 | after any captures and clears over many endpoints each holds exactly its newest `keep` since the last clear |
| `Captures.PruneKeepsNewest` | internal/db/webhooks.sql.go:306-329 | pruning leaves an endpoint its newest rows and the others all of theirs |
| `Captures.CaptureStore.CaptureWebhook` | internal/db/webhooks.go:62-86 | insert, then prune, in one transaction |
| `Captures.CaptureStore.PruneCaptures` | internal/db/webhooks.sql.go:306-316 | deletes exactly the rows below the cutoff id |
| `Captures.PollingExact` | internal/api/webhooks.go:345-391 | for any interleaving and page sizes the client receives captures in ascending order, none twice; up to its cursor it has exactly those that were not cleared, nor outrun by `keep` newer ones, while still ahead of it; beyond it exactly the kept ones are stored |
| `Captures.WatchesTheLog` | internal/db/webhooks.go:59-86 | the log being polled is the one of the retention result, over the same captures and clears |
| `Captures.PollProgress` | internal/db/webhooks.sql.go:209-216 | a poll hands over `limit` captures or leaves none waiting |
| `Quota.QuotaHolds` | internal/db/webhooks.go:19-52 | in any interleaving no project holds more endpoints than allowed |
| `Quota.CountRefusesAtQuota` | internal/db/webhooks.go:31-37 | the count step refuses exactly when the project's endpoints have reached the quota |
| `Quota.CreateAlone` | internal/db/webhooks.go:24-46 | an uninterrupted create adds its endpoint exactly when there is room and neither id nor slug is taken, changes nothing else and leaves no lock |
| `Quota.DeletesRun` | internal/db/webhooks.sql.go:77-86 | an endpoint delete removes that endpoint only; a project delete waits for the lock and takes exactly its own |
| `RequestBody.BodyExact` | internal/api/request_body.go:69-120 | over all JSON values a body is accepted exactly when it is the encoding of a typed body within bounds, and is returned for storing as it came |
| `RequestBody.BodyRoundTrip` | internal/api/request_body.go:52-67 | every acceptable body, encoded, is read back as itself |
| `RequestBody.ValidationIsIdempotent` | internal/api/request_body.go:110-119 | validating a body that was validated returns it unchanged |
| `RequestBody.RowsExact` | internal/api/key_value_rows.go:39-68 | headers and query parameters likewise, order and duplicate keys kept |
| `RequestBody.BodyRefused` | internal/api/request_body.go:69-201 | every refusal of a body names a fault the body has; for a row, the first bad one and its fault |
| `RequestBody.RowRefused` | internal/api/key_value_rows.go:70-108 | the same for one row |
| `RequestBody.PartRefused` | internal/api/multipart_rows.go:85-136 | the same for one multipart row |
| `RequestBody.NullKeeps` | internal/api/request_body.go:69-76 | absent and null, and nothing else, leave what is stored alone |
| `RequestBody.RowDecoded` | internal/api/key_value_rows.go:71-114 | a row is accepted as r exactly when it is the encoding of r and r is within bounds |
| `RequestBody.PartDecoded` | internal/api/multipart_rows.go:85-136 | an accepted multipart row is the encoding of what was read, within the bounds of its kind |
| `RequestBody.PartCoded` | internal/api/multipart_rows.go:36-55 | every row within bounds, encoded, is read back as itself |
| `RequestBody.ParseRowLoop` | internal/api/multipart_rows.go:67-75 | the row loop returns all rows in order or the first bad row's problem with its index |
| `Json.TrimSpaceEmpty` | internal/api/key_value_rows.go:95-98 | a trimmed key is empty exactly when it is all space |
| `Json.Utf8LengthLeast` | internal/api/request_body.go:161-164 | a character counts the fewest bytes that hold it |
| `NodeProxy.ProxyPatchExact` | internal/api/node_proxy.go:62-115 | a patch is accepted exactly when its object says so, with an id for mode proxy and only then |
| `NodeProxy.ProxyPatchRefused` | internal/api/node_proxy.go:62-115 | every refusal of a proxy object names a fault it has |
| `ShellQuote.QuotingRoundTrip` | cmd/upload/main.go:346-349 | for every list of strings the quoted strings joined by spaces lex back to the list under section 2.2 of the POSIX Shell Command Language, unless one holds a NUL |
| `ShellQuote.ReplaceQuotesText` | cmd/upload/main.go:346-349 | text between quotes stays as it is, and each quote becomes the same four characters |
| `ShellQuote.MoveCommand` | cmd/upload/main.go:152-156 | the uploader's command is read as four words whatever the paths contain |

## Left out

- HTTP plumbing, authentication, logging, response shapes and error texts: single branches only; faults and replies are modelled by kind.
- `captureTarget`, `isValidSlug`, `readCaptureBody`: each is one pass over its input with no property across calls.
- Environments, variables, request examples, proxy CRUD and project reordering: they repeat the append and reorder patterns shown for folders and requests.
- Other columns of `UpdateFolder` and `UpdateRequest`: independent COALESCE merges; `settings` stands for them.
- PostgreSQL deadlocks, crash recovery and sequence values committed out of order.
- A cascade that waits for a row lock half way: a delete is one atomic statement here.
- Email normalisation and syntax, name length limits, uuid syntax: input checks that reject before any modelled step.
- Methods for registration, creating and deleting teams and projects: each is one guarded statement and appears as a case of `Teams.Handle` only.
- Overflow of `time.Duration` for waits beyond about 292 years.
- `RateLimit.WholePeriodHonours`: exact arithmetic only; the return meets the token at the instant it is due, where float64 rounding decides either way. The other limiter results leave out rounding too.
- A string holding U+0000: the validators accept it, the jsonb columns (internal/db/migrations/20260925102950_requests.sql:18-20) refuse it when it is stored.
- Survival of an answered invitation under a concurrent revoke: the delete carries no status guard (internal/db/invitations.sql.go:44-47), and the model keeps that.
- `Teams.ReachableWorlds`: holds with handlers run one at a time; the membership checks run outside the writing transaction.
- `RequestBody.ParseRowLoop`: an unknown-field problem carries the set of unknown names, not the first in sorted order.
