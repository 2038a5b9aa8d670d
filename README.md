# Rank and identity core of a Discord–Roblox bot, in Dafny

This project models the decision core of a Discord bot. The bot manages a
Roblox group and its branch groups.

- **Identity linking.** A Discord user proves ownership of a Roblox account.
  The bot stores a pending verification code; the user puts it on their Roblox
  profile; a later request completes the link. Pending codes expire after ten
  minutes.
- **Rank authorisation.** A linked manager may change another member's rank
  in the primary group: as an absolute change by role name, or one rung up or
  down a ladder sorted by rank value. The manager needs an allowed rank, and the
  target rank may not exceed a ceiling. Branch groups have their own
  authorisation, with a branch manager allow-list and no ceiling. Branch join
  requests are accepted or rejected the same way.
- **Audit log.** A successful rank change or join decision is posted to a
  webhook, unless the webhook is missing or still the placeholder.
- **Support tickets.** There is at most one active ticket per owner. A ticket
  is found by its channel, claimed at most once, and removed when it is
  closed. Closing also sends rating buttons whose identifiers encode the
  rating and the owner.

Every Roblox and Discord call is an oracle. It is either a function-valued
field of `Environment.Api` or an input to the operation: the id of the channel
the platform created, whether the link file could be written, the fresh code.
The JSON stores are classes with map fields:

- `Verification.AccountLinks`
- `Verification.PendingVerifications`
- `Tickets.ActiveTickets`

Modules:

- `Common`: Option, JavaScript truthiness, `toLowerCase`, decimal printing.
- `Environment`: the platform oracles and the configuration.
- `Permissions`: the primary-group and branch permission checks.
- `Ladder`: in-place sort by rank, neighbour on the ladder, role lookup by name.
- `Audit`: webhook choice and log-entry fields.
- `RankOps`: the five rank and join handlers.
- `Verification`: expiry sweep, stores, link/change state machine.
- `Tickets`: ticket table, channel names, rating-button identifiers.

The sweep, the in-place sort and the ticket lookup are loops. They are proved
against reference definitions: `Unexpired`, `SortedByRank` with a multiset,
and `IsTicketChannel`. The ticket handlers are methods of `Tickets.ActiveTickets`. The link and
change handler, `Verification.HandleLinkRequest`, is a module-level method
that modifies the two verification stores. Each handler's new state is given by a step function (`LinkTransition`, `OpenStep`,
`ClaimStep`, `CloseStep`), and the lemmas state the properties of those
functions.

## Model

| member | source | states |
|---|---|---|
| Common.ToLower | index.js:808 | Same length, and no upper-case letter remains. Each upper-case letter becomes a lower-case letter that upper-casing maps back to it. Every other character is kept. |
| Common.ToLowerIdempotent | index.js:1171 | Lower-casing twice equals lower-casing once, so the name comparison is stable. |
| Common.ToLowerOfToUpper | index.js:808 | Lower-casing a string gives the same result as lower-casing its upper-case form. So a name typed in capitals matches the same roles. |
| Permissions.LinkedUsername | index.js:126-129 | A caller counts as linked exactly when an entry exists and is non-empty. The name returned is the stored one. |
| Permissions.ResolvedManagerId | index.js:707-721 | The caller's Roblox id exists exactly when the caller is linked and the linked name resolves. It is the id of that name. |
| Permissions.ManagerRankIn | index.js:723 | The caller's role in a group is looked up only through a resolved account. It is the platform's answer for that account. |
| Environment.BranchGroupId | index.js:1141-1145 | A branch id is usable exactly when it is configured, non-empty and not `GRUP_ID_BURAYA`. |
| Permissions.Ceiling | index.js:739 | The ceiling is at most the caller's own rank and at most the configured maximum. It equals one of the two. |
| Permissions.CheckRankPermissions | index.js:706-755 | Each denial is stated as an if-and-only-if on its own step, in the source's order: not linked, linked name unknown, not in the group, rank not on the allow-list (reporting the caller's rank), target above the ceiling (checked only after the allow-list, and reporting `Ceiling` of the caller's rank). An allowed answer certifies every step, with `maxAllowedRank` equal to that ceiling. Every caller who passes all steps is allowed. |
| Permissions.CeilingBelowOwnRankRefuses | index.js:739-746 | With rank 10 and a maximum of 8, a request for 10 is refused with ceiling 8, and a request for 8 is allowed. |
| Permissions.CeilingPassesAsWritten | index.js:739-741 | The source's comparison passes exactly when the maximum is missing or the target is within the modelled ceiling. |
| Permissions.CeilingAgreesWhenConfigured | index.js:739-741 | With a maximum configured, the source's comparison and the modelled ceiling agree. |
| Permissions.MissingMaximumDisablesCeiling | index.js:739-741 | Without a maximum the source's comparison lets a rank-5 caller assign rank 200 (see Findings). |
| Permissions.CheckBranchPermissions | index.js:1125-1154 | Each branch denial is stated as an if-and-only-if on its own step, in the source's order: not linked, linked name unknown, branch id unusable, caller absent from the branch group, branch rank not on the manager allow-list (reporting that rank). There is no ceiling. Allowed holds exactly when all steps pass. |
| Ladder.SortByRank | index.js:867 | After the in-place sort the array is ascending by rank and a permutation of its old contents. |
| Ladder.FindIndexByRank | index.js:868 | Returns the first index with that rank, or -1 exactly when no entry has it. |
| Ladder.PromoteMove | index.js:867-874 | The step up reports a missing rank exactly when no entry has it. A move goes to a role of the ladder, and it never answers that the user is already at the bottom. |
| Ladder.DemoteMove | index.js:928-935 | The step down reports a missing rank exactly when no entry has it. A move goes to a role of the ladder, and it never answers that the user is already at the top. |
| Ladder.PromoteMoveAsWritten | index.js:867-874 | The source's step up never reports a missing rank. On a non-empty ladder without the rank it moves to the lowest role. |
| Ladder.PromoteMoveIsNextRankUp | index.js:867-874 | A missing rank is reported exactly when it is missing. The target is never lower than the current rank. With distinct ranks the target is the least higher rank, and the refusal comes exactly at the top. |
| Ladder.DemoteMoveIsNextRankDown | index.js:928-935 | Mirror image of promotion: never higher, the greatest lower rank, refused exactly at the bottom. |
| Ladder.PromoteAsWrittenCanMoveDown | index.js:868-874 | The source's promotion of a rank missing from the ladder picks the lowest role, which lies below the user's rank (see Findings). |
| Ladder.PromoteAsWrittenAgreesOnLadder | index.js:868-874 | When the rank is on the ladder, the source's step and the corrected step agree. |
| Ladder.ThreeRungLadder | index.js:867-874 | On ladder 1/5/10 at rank 5, promotion gives 10 and demotion gives 1. Promotion is refused at 10 and demotion at 1. |
| Ladder.DistinctRanksPermutation | index.js:867 | Sorting keeps rank values distinct. |
| Ladder.FindRoleByName | index.js:808 | Returns the first role whose name equals the requested one ignoring case. Returns none exactly when no role matches. |
| Ladder.NameLookupIgnoresCase | index.js:1171 | "CORPORAL" finds the role named "Corporal". |
| Audit.RankWebhookUrl | index.js:195-197 | A rank entry goes nowhere exactly when the main webhook is missing, empty or `WEBHOOK_URL_BURAYA`. |
| Audit.BranchRequestWebhookUrl | index.js:270-276 | A join entry goes to the branch webhook when usable, otherwise to the main one. It goes nowhere when the chosen one is unusable. |
| Audit.RankEmbed | index.js:200-259 | Title and colour follow the kind of change. Target, manager and new rank are always present. Old rank, branch and reason fields appear exactly when present, with their values. |
| Audit.RankChangePost | index.js:194-267 | A post exists exactly when the main webhook is usable, and it carries the entry. |
| Audit.BranchRequestEmbed | index.js:279-326 | Green with the accepted title and "Kabul Edildi" exactly for `kabul`, otherwise red with the rejected title and "Reddedildi". Target, manager (with rank) and branch are always present. The reason field appears exactly when a reason is present. |
| Audit.BranchRequestPost | index.js:269-334 | A post exists exactly when the branch or the main webhook is usable. It goes to the branch one first. |
| RankOps.Mutate | index.js:823-833 | The role call is made. Success is reported exactly when the call succeeded. The entry is posted exactly when the call succeeded and the webhook is usable. |
| RankOps.Guarded | index.js:814-833 | A permission denial or a self-target produces no call. A call is made exactly when the permission is granted and the target is not the caller's own account. A refusal carries the permission check's denial. After a successful call, the post is exactly the entry of the given kind: the target as typed, the manager's linked name and role name as the permission check found them, the old rank text, and the new role as `name (rank)`. |
| RankOps.OldRankText | index.js:831 | An absent current rank is logged as "Bilinmiyor". Otherwise it is logged as `name (rank)`. |
| RankOps.HandleRankChange | index.js:789-844 | Target, roles and role-lookup failures are stated as if-and-only-ifs. Once the named role is found: refused exactly when the permission check denies its rank, self-target exactly when allowed and the target is the caller, and a call exactly when allowed and not the caller. A call goes to the case-insensitively named role in the primary group, and the post only follows a successful call. A refusal carries the denial for the named role's rank. After success the post is the `change` entry: the target, the manager and their role name, the old rank ("Bilinmiyor" when absent) and the new role. |
| RankOps.SortedCopy | index.js:867 | The sorted copy is sorted and a permutation of the fetched roles. It has the same top, bottom and neighbours. |
| RankOps.HandleRankPromotion | index.js:846-905 | Refusals are stated as if-and-only-ifs: target unknown, not in the group, roles unavailable, off the ladder, and (with distinct ranks) at the top. With distinct ranks, a call happens exactly when the next rank up exists and passes the permission check and the target is not the caller; the refusal and self-target answers are stated the same way. Any call assigns a role no lower than the current one, the next one up with distinct ranks. A refusal carries the denial for such a role's rank. After success the post is the `promotion` entry: the target, the manager and their role name, the current rank and the new role. |
| RankOps.HandleRankDemotion | index.js:907-966 | The same as promotion, one rung down: the next rank down is assigned exactly when it passes the permission check and the target is not the caller. The refusal is at the bottom. A refusal carries the denial for the lower role's rank. After success the post is the `demotion` entry with the same fields. |
| RankOps.HandleBranchRankChange | index.js:1123-1202 | A branch denial happens exactly when the branch check denies, and an unusable branch id never leads to a call. Once the branch check passes, each answer is an if-and-only-if on its step: target unknown, not in the branch, roles unavailable, role not found, self-target. A call happens exactly when all of these pass and the target is not the caller. It goes to the configured branch group with the role found by name. Branch and reason fields are logged exactly when present. After success the post is the `branch` entry: the target, the branch manager and their branch role name, the old rank in the branch, the new role, the branch and the reason. |
| RankOps.UnconfiguredBranchConsultsNoRank | index.js:1141-1149 | For an unusable branch id the outcome does not depend on the rank oracle, and no call is made. |
| RankOps.HandleBranchRequest | index.js:1204-1268 | A call is made exactly when the branch check passes and the target resolves. It accepts exactly for `kabul`. After a successful decision the post is exactly the join-request entry for that decision: the target, the branch manager and their branch role name, the branch and the reason. It goes to the branch webhook, or to the main one when the branch webhook is unusable. No post follows a refusal or a failed call. |
| Verification.Unexpired | index.js:342-347 | Keeps exactly the entries at most ten minutes old, unchanged. |
| Verification.UnexpiredIsClean | index.js:336-352 | After a sweep no entry is older than ten minutes. A second sweep changes nothing, and nothing is added. |
| Verification.UnexpiredChangesIffExpired | index.js:341-350 | The sweep changes the store exactly when some entry is expired. |
| Verification.SweepExpired | index.js:336-352 | The loop leaves exactly the unexpired entries. It reports a change exactly when some entry was expired. |
| Verification.PendingVerifications.CleanExpiredVerifications | index.js:336-352 | The store holds the unexpired entries. Its file is rewritten once exactly when something was removed. |
| Verification.LinkTransition | index.js:1270-1353 | Every answer is an if-and-only-if. Link is refused exactly when a link exists, change exactly when none exists; then unknown users and non-members are refused. Refusals change nothing. Past the lookups, a pending code found on the requested user's profile completes the request: linked exactly when the link file was written, with `links[id]` set to the requested name, and the pending entry deleted either way. Otherwise a fresh code replaces the pending entry, and the links stay unchanged. |
| Verification.HandleLinkRequest | index.js:1270-1442 | Both commands sweep first and then take the transition. The stores end in the transition's state. The pending file is rewritten once for the sweep if it removed something, and once for the transition if it wrote. |
| Verification.ExpiredCodeNeverAccepted | index.js:339-343 | Given that the sweep's write succeeds, a code older than ten minutes never completes a link. The pending saves are taken to succeed; see Left out. |
| Verification.CodeIsNotTiedToRequestedName | index.js:1299-1301 | The ownership check uses the newly requested name's id. A code issued for one name completes a link to another. |
| Verification.ReissueOverwrites | index.js:1331-1337 | Issuing twice keeps only the newest code and adds no other key. |
| Tickets.FindTicketByChannel | index.js:1773-1779 | Finds an owner whose ticket is in the channel, or none exactly when no ticket is. With unique channels the owner is the only one. |
| Tickets.HasSupportRole | index.js:1787 | Support membership holds exactly when some configured support role id is among the member's roles. It never holds with no support roles configured. |
| Tickets.OpenStep | index.js:1599-1685 | An owner with an active ticket is refused and nothing changes. The entry is written, unclaimed, exactly when the channel was created and the welcome was sent. |
| Tickets.ClaimStep | index.js:1917-1930 | `claimedBy` is set exactly when the ticket exists, the claimer has a support role and the ticket is unclaimed. Every other claim leaves the table unchanged. |
| Tickets.CloseStep | index.js:1781-1885 | The owner, a channel manager or a support member closes the ticket. Closing removes exactly the owner's entry. |
| Tickets.ClaimedOnlyOnce | index.js:1923-1929 | After a claim, any second claim is refused as already claimed, naming the first claimer. |
| Tickets.CloseKeepsOthers | index.js:1884-1885 | Closing keeps every other ticket as it was, and the owner may open again. |
| Tickets.StepsKeepChannelsUnique | index.js:1679-1684 | Open, claim and close keep channels unique when a created channel is new. |
| Tickets.ActiveTickets.Open | index.js:1591-1709 | The table becomes what OpenStep gives. |
| Tickets.ActiveTickets.Claim | index.js:1896-1955 | Looks the channel up, then the table becomes what ClaimStep gives. |
| Tickets.ActiveTickets.Close | index.js:1764-1894 | Looks the channel up, then the table becomes what CloseStep gives. |
| Tickets.SanitizeUsername | index.js:1613 | Same length and only `[a-z0-9_]`. Allowed lower-cased characters are kept and every other character becomes `_`. |
| Tickets.SanitizeIdempotent | index.js:1613 | Sanitising twice equals sanitising once. |
| Tickets.TicketChannelName | index.js:1613-1614 | The name is `ticket-` followed by exactly the sanitised username, so only `[a-z0-9_]`. |
| Tickets.SplitJoin | index.js:684 | Splitting on `_` undoes joining pieces without `_`. |
| Tickets.ParseIntOfIntToString | index.js:685 | `parseInt` reads back every printed integer. |
| Tickets.ParseInt | index.js:685 | A leading digit always gives a non-negative number. A leading character that is not a digit or a sign gives NaN. A negative result needs a leading `-`. |
| Tickets.ParseRatingButton | index.js:683-687 | An identifier is read as a rating exactly when it starts with `rate_ticket_`. |
| Tickets.RatingButtonId | index.js:1819-1835 | The identifier starts with `rate_ticket_` and ends with the owner's id. |
| Tickets.RatingButtonRoundTrip | index.js:1819-1835 | `rate_ticket_{n}_{owner}` parses back to `(n, owner)` when the owner has no `_`. |
| Tickets.RatingOnlyByOwner | index.js:1961-1963 | A rating from a button is accepted exactly from the ticket's owner. |

## Left out

- JSON loading and saving, the backup of a corrupt file and `process.exit` are not modelled. The stores are in-memory maps.
- Only the link file's save result is an input (`linkSaved`), because it is the only save result the source inspects. The pending and ticket saves are taken to succeed.
- `Math.random` code generation, `Date.now()` and the embed timestamp and footer become inputs or are dropped. The HTTP post through axios is represented by a `Post` value.
- Reply texts, welcome messages, the category display name, DMs, transcripts, log-channel messages and the rating log embed are not modelled. Neither is the delayed channel delete.
- RankOps.HandleRankDemotion: a rank missing from the ladder is reported as off the ladder. The source reads `sortedRoles[-2]`, which is undefined, and throws before any call. Neither version makes a call.
- Environment.BranchGroupId: the configuration's branch map is always present. The source accepts a configuration without `branchGroups` (the guard at index.js:73), and then the branch lookup throws.
- RankOps.HandleBranchRankChange: with no `branchGroups` in the configuration, the source throws at the lookup (index.js:1141). The dispatcher replies with a generic error (index.js:658-663). The model answers with a branch-not-configured denial instead. Neither makes a call or posts.
- RankOps.HandleBranchRequest: the same missing `branchGroups` throws at index.js:1222 in the source, and the model answers with a branch-not-configured denial. Neither makes a call or posts.
- When sending to the log channel throws during a close, the source skips deleting the entry. The model always deletes.
- Ban, unban, announcements, the activity and group-list queries, rank query, setup commands and the command registration and dispatch are not modelled.
- Handlers run concurrently in the source with unlocked read-modify-write of the stores. Each handler is modelled as one sequential step.
- Common.ToLower: lower-cases ASCII, Latin-1 and `Ğ`/`Ş`. It does not model the rest of Unicode case mapping, such as `İ`, which lower-cases to two code units.
- Strings are sequences of Unicode scalar values, not UTF-16 code units. The sanitiser therefore replaces a character outside the basic plane by one `_`, where the source writes two.
- Tickets.ParseInt: does not skip leading whitespace or read `0x` prefixes. Neither occurs in button identifiers the bot builds.
- Tickets.FindTicketByChannel: when two tickets share a channel, the source picks the first in insertion order. The model may find either one. With unique channels, which the steps keep, the answer is the same.
- A user id of 0 is falsy in the source and would read as "not found". The oracle returns `None` for an unknown user, and Roblox ids are positive.
- Permissions.Ceiling: an explicit `null` maximum is not modelled; JavaScript's `Math.min` reads it as 0. Only a present number and an absent setting are modelled.
- convert_messages.js is not part of this model. It is a one-off rewrite script made of regular-expression replacements and file I/O.

## Findings

| source | as written | input that shows it | evidently intended | confidence | as-written member | corrected member |
|---|---|---|---|---|---|---|
| index.js:739-741 | With `maxRankCanAssign` missing, `Math.min` of it and the own rank is NaN, and `target > NaN` is false, so every target passes the ceiling. | No `maxRankCanAssign`; a caller of rank 5 asks for rank 200. | The ceiling is the caller's own rank. | not executed | Permissions.MissingMaximumDisablesCeiling | Permissions.CheckRankPermissions |
| index.js:868-874 | With the user's rank missing from the ladder, `findIndex` gives -1. The promotion then takes `sortedRoles[0]`, the lowest role. | Ladder Recruit(1), Corporal(10); user at rank 5 is "promoted" to Recruit. | A rank not on the ladder is reported and nothing is assigned. | not executed | Ladder.PromoteAsWrittenCanMoveDown | Ladder.PromoteMoveIsNextRankUp |
