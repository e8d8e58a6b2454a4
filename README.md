# discord-tmio-twitch-bot, modelled in Dafny

The bot announces Twitch streams of trackmania.io club members in a
Discord channel. This project models the three pieces that decide what
the bot does. Every Twitch, Discord and HTTP call is replaced by data:
an input snapshot or oracle for what the call would return, and an
appended effect log for what it would do.

- **Subscriptions** (`twitch.dfy`, class `Twitch`). `subscribe` reconciles
  the remote EventSub subscriptions with the roster in two passes:
  - The stale pass deletes every subscription whose broadcaster is not
    on the roster. First it emits `unsubscribed` for that broadcaster
    when the broadcaster resolves and is not a test account in
    production.
  - The desired pass requests each missing `stream.online` /
    `stream.offline` subscription.
  - On the initial run it also announces users who are already live.

  `eventHandler` turns a broadcaster and an optional stream into exactly
  one `online`, `offline` or `unsubscribed` event, skipping `DevTest`
  accounts in production. `manageUpdateEventSubscription` keeps the map
  of channel-update handles.
- **Notifications** (`discord.dfy`, class `Discord`). The message
  lifecycle holds at most one status message per Twitch user:
  - going online deletes the old message and posts a new one;
  - an offline event edits the user's message in place, or posts one
    when there is none;
  - `cleanup` sweeps entries by age, or all of them.

  Each method of the class is proved to end in the state a function of
  the old state describes. Lemmas about those functions prove an
  invariant: the map refers to exactly the messages sent and not deleted,
  one per user.
- **Roster** (`trackmania.dfy`). `fetchAll` merges the pages of a
  trackmania.io endpoint in a do-while loop. `getTwitchUsersByClub`
  collects the Twitch names of the members of one or more clubs into a
  set.

Shared pieces:
- `strings.dfy` models `includes`, `split`, `join` and "last segment of
  a path".
- `helix.dfy` holds the Twitch user, stream and event records.
- `wrappers.dfy` holds `Option`.

Each class method is proved to end in the state that a function of the
old state describes. The properties are lemmas about those functions.

## Quirks of the code

The program does the following, and the model does the same:
- **A repeated `online` is reposted.** There is no same-session guard:
  a second online event for a user already online deletes the message
  and posts another (`RepeatedOnlineReposts`). `subscribe` runs with
  `isInit` on every roster refresh, so every live user is re-announced
  each time.
- **Nothing consumes `update` events.** Channel-update events are
  emitted but never used, so no message is ever edited with new stream
  metadata.
- **Offline and unsubscribe can open a channel-update subscription.**
  `manageUpdateEventSubscription` subscribes whenever no handle is
  held, even when asked to unsubscribe. So an `offline` or
  `unsubscribed` event for a user without a handle opens one
  (`HandleEvent`, `StaleStepSubscribesUpdate`). In the stale pass this
  can leave a channel-update subscription of a user who is no longer on
  the roster. The next run finds it stale and deletes it
  (`StaleUpdateLeaks`).
- **No session start is tracked.** An online message carries the
  stream's start date. An entry's `lastChange` is the time of the last
  post or edit.
- **Subscription failures are not collected.** Creation failures are
  neither collected nor isolated. A single `Promise.all` awaits all the
  requests.

## Model

| member | source | states |
|---|---|---|
| Strings.Includes | src/twitch.ts:207 | `includes` is true exactly when the substring occurs at some position |
| Strings.Split | src/trackmania.ts:40 | splitting gives at least one part, no part holds the separator, and joining the parts gives the string back |
| Strings.SplitJoin | src/discord.ts:58 | splitting a joined list of separator-free parts gives the parts back |
| Strings.LastSegment | src/trackmania.ts:40-41 | the last fragment of a split is a suffix with no `/`, preceded by `/` unless it is the whole string |
| Strings.LastSegmentAfter | src/trackmania.ts:40-41 | the last fragment of `a/b`, where `b` holds no `/`, is `b` |
| Subscriptions.Dispatch | src/twitch.ts:178-204 | the event is `online` exactly when a stream is given, dated at the stream start; otherwise `unsubscribed` exactly when the flag is set, and `offline` otherwise, both dated now; its user is the broadcaster |
| Subscriptions.ManageUpdate | src/twitch.ts:159-176 | a held handle is stopped and removed on unsubscribe and left alone otherwise; with no handle held, a new handle is subscribed and recorded whatever the flag; other users' handles are untouched |
| Subscriptions.ManageUpdateTracked | src/twitch.ts:159-176 | the handle map stays injective and equal to the set of channel-update subscriptions opened and not stopped |
| Subscriptions.DevTestIgnored | src/twitch.ts:178-208 | a broadcaster is a test account exactly when the environment is `production` and `DevTest` occurs in the description, and the event handler leaves the state unchanged exactly for test accounts |
| Subscriptions.HandleEvent | src/twitch.ts:178-204 | a DevTest broadcaster in production changes nothing. Otherwise exactly the one event `Dispatch` selects is emitted: after the update step when there is no stream, and before it when there is. With a stream, a held handle is kept and nothing else is logged; without one, a new handle is subscribed. Without a stream, a held handle is stopped and removed, and a missing one is subscribed. Other users' handles are untouched, and no stream subscription is created or deleted |
| Subscriptions.HandleEventTracked | src/twitch.ts:178-204 | event handling keeps the handle map in step with the open channel-update subscriptions |
| Subscriptions.StaleStep | src/twitch.ts:87-105 | a subscription of a roster user is left alone; a stale one is deleted last, preceded by an `unsubscribed` event when its user resolves and is no test account; the id defaults to `'0'` |
| Subscriptions.StaleStepSubscribesUpdate | src/twitch.ts:98-104 | deleting a stale subscription of a resolved user who holds no handle leaves that user with a new channel-update subscription |
| Subscriptions.StaleOfMembers | src/twitch.ts:86-98 | a subscription is among the stale ones exactly when it is in the snapshot and its broadcaster id matches no roster user |
| Subscriptions.StalePassUnsubscribes | src/twitch.ts:86-107 | the stale pass deletes exactly the stale subscriptions, in snapshot order, and creates none |
| Subscriptions.StalePassDeletesExactlyStale | src/twitch.ts:86-107 | a snapshot subscription is deleted exactly when it is stale, so no subscription of a roster user is ever deleted |
| Subscriptions.StalePassQuiet | src/twitch.ts:86-107 | with no stale subscription the stale pass changes nothing |
| Subscriptions.StalePassTracked | src/twitch.ts:86-107 | the stale pass keeps the handle map in step with the open channel-update subscriptions |
| Subscriptions.RequestsExactly | src/twitch.ts:111-154 | an online (offline) subscription is requested for an id exactly when the id is a roster user's and the snapshot has no online (offline) subscription for it; nothing else is requested |
| Subscriptions.RequestsAtMostOnce | src/twitch.ts:111-154 | with distinct roster ids, each kind is requested at most once per user |
| Subscriptions.RequestsEmpty | src/twitch.ts:111-154 | when the snapshot has both kinds for every roster user, nothing is requested |
| Subscriptions.ReconcileIdempotent | src/twitch.ts:83-157 | on a snapshot with both kinds for every roster user and nothing stale, a run deletes nothing, creates nothing and emits nothing |
| Subscriptions.ReconcileCovers | src/twitch.ts:83-157 | the remote state a run leaves consists of the snapshot minus its deletes, the stream subscriptions it requests, and the channel-update subscriptions it opens and leaves open. If the run leaves no handle with a user off the roster, then in that state every roster user has both stream kinds and nothing is stale |
| Subscriptions.SecondRunQuiet | src/twitch.ts:83-157 | under the same condition, a second run on the remote state the first run left changes nothing |
| Subscriptions.StaleUpdateLeaks | src/twitch.ts:83-176 | with roster [A] and a stale `stream.offline` subscription of a user E who resolves and holds no handle, the run opens a channel-update subscription for E. The remote state it leaves is not covered, and the next run deletes that subscription |
| Subscriptions.ReconcileDeletesStale | src/twitch.ts:86-107 | a run deletes every stale subscription of its snapshot |
| Subscriptions.ReconcileTracked | src/twitch.ts:83-157 | a reconciliation run keeps the handle map in step with the open channel-update subscriptions |
| Subscriptions.InitAnnounces | src/twitch.ts:66-80 | on the initial run the events emitted are exactly `online` for each non-DevTest user with a live stream, in roster order, dated at the stream start |
| Subscriptions.InitPassTracked | src/twitch.ts:66-80 | the initial announcements keep the handle map in step with the open channel-update subscriptions |
| Subscriptions.SubscribedTracked | src/twitch.ts:57-81 | a whole `subscribe` call keeps the handle map in step with the open channel-update subscriptions |
| Subscriptions.IsDeprecated | src/twitch.ts:88-96 | the scan with early exit reports a subscription deprecated exactly when no roster user has its id |
| Subscriptions.ActiveSubscriptions | src/twitch.ts:112-134 | the scan with early exit finds an online (offline) subscription for the user exactly when the snapshot has one |
| Subscriptions.Twitch.constructor | src/twitch.ts:52 | starts with no handles and an empty log, which satisfies the handle invariant |
| Subscriptions.Twitch.ManageUpdateEventSubscription | src/twitch.ts:159-176 | the map update and the subscribe/stop calls are those of `ManageUpdate` |
| Subscriptions.Twitch.EventHandler | src/twitch.ts:178-204 | the new state is that of `HandleEvent` |
| Subscriptions.Twitch.UpdateStreamEventSubs | src/twitch.ts:83-157 | its two loops end in the state of the stale pass followed by the requests of the desired pass |
| Subscriptions.Twitch.CleanOutDeprecated | src/twitch.ts:84-107 | the first loop ends in the state of the stale pass over the whole snapshot |
| Subscriptions.Twitch.RegisterMissing | src/twitch.ts:109-154 | the second loop leaves the handles alone and appends exactly the requests of the desired pass, in roster order |
| Subscriptions.Twitch.Subscribe | src/twitch.ts:57-81 | reconciliation, then the initial announcements when `isInit` is set |
| Notifications.DescribeEmpty | src/discord.ts:47-53 | the online description is empty exactly when title and game name both are |
| Notifications.DescribeLines | src/discord.ts:47-53 | when title and game name hold no newline, a non-empty online description splits at newlines into the title then the game name, each only if non-empty |
| Notifications.AfterDelete | src/discord.ts:76-83 | no entry is left for the user; its message is deleted only if an entry existed; other entries are unchanged |
| Notifications.AfterDeleteConsistent | src/discord.ts:76-83 | deleting keeps the invariant: the map refers to exactly the messages still standing, one per user |
| Notifications.AfterMessage | src/discord.ts:104-135 | online: any old entry and its message are deleted, then one new message is sent and recorded as online at now. Offline with an entry: that message is edited in place, nothing is sent, and the entry becomes offline at now. Offline without an entry: one message is sent and recorded offline. Other entries are unchanged |
| Notifications.AfterMessageConsistent | src/discord.ts:104-135 | posting or editing keeps the invariant |
| Notifications.RepeatedOnlineReposts | src/discord.ts:113-114 | a second online event for the same user deletes the message just posted and sends another |
| Notifications.OnlineThenOfflineEdits | src/discord.ts:117-122 | going offline after online edits that same message once, with no delete and no send |
| Notifications.AfterDeleteAllEffect | src/discord.ts:89-97 | deleting distinct entries one after the other removes exactly those, keeps the rest unchanged and issues one message delete per entry, in order |
| Notifications.AfterDeleteAllConsistent | src/discord.ts:89-97 | a sweep keeps the invariant |
| Notifications.CleanupOutcome | src/discord.ts:89-97 | a sweep leaves exactly the unexpired entries and deletes one message per expired entry |
| Notifications.CleanupImmediatelyEmpties | src/discord.ts:85-92 | `cleanup(true)` empties the map and appends exactly one message delete per prior entry |
| Notifications.SweepAgeRules | src/discord.ts:91-95 | without `immediately`, an online entry is kept exactly when at most 172800000 ms old, and an offline one exactly when at most 21600000 ms old; kept entries are unchanged |
| Notifications.SweepScenario | src/discord.ts:91-95 | an online entry 50 h old is swept; an offline entry is kept at 3 h and swept at 7 h |
| Notifications.Discord.constructor | src/discord.ts:31-35 | starts with an empty map and no messages, which satisfies the invariant |
| Notifications.Discord.Online | src/discord.ts:37-63 | builds the description and posts as `AfterOnline` describes |
| Notifications.Discord.Offline | src/discord.ts:65-74 | posts or edits the ended notice as `AfterOffline` describes |
| Notifications.Discord.Delete | src/discord.ts:76-83 | the new state is that of `AfterDelete` |
| Notifications.Discord.Cleanup | src/discord.ts:89-97 | visits each entry once and deletes, in the order visited, exactly the entries that the age rules (or `immediately`) expire |
| Notifications.Discord.Message | src/discord.ts:104-135 | the new state is that of `AfterMessage` |
| Roster.FetchFromPages | src/trackmania.ts:43-59 | pages are requested from 0 in increasing order; every page but the last was accepted and announced a further page; the fetch fails exactly when the last request is past the available pages |
| Roster.FetchFromData | src/trackmania.ts:46-61 | on success, the last page stops the loop (`page_max` 0, data key missing, or no further page announced) and the data is the accepted pages' arrays concatenated in page order |
| Roster.FetchAll | src/trackmania.ts:39-62 | the do-while loop requests the pages and returns the data of the fetch keyed by the endpoint's last path segment |
| Roster.ClubKey | src/trackmania.ts:33 | the data key of `club/<id>/members` is `members`, whatever the id |
| Roster.NamesOfExactly | src/trackmania.ts:22-26 | a name is collected exactly when some member has both `meta` and `meta.twitch` set to it |
| Roster.ClubsNamesFailure | src/trackmania.ts:19-20 | a failed fetch for any club fails the whole call |
| Roster.ClubsNamesSucceeds | src/trackmania.ts:19-27 | the call succeeds exactly when every club's fetch succeeds |
| Roster.ClubsNamesExactly | src/trackmania.ts:13-29 | on success, a name is in the set exactly when a member of one of the clubs carries it; duplicates collapse |
| Roster.OneIsList | src/trackmania.ts:15-17 | a single club id behaves as the one-element list, giving that club's names |
| Roster.AddTwitchNames | src/trackmania.ts:22-26 | the inner loop adds to the set exactly the Twitch names the members carry |
| Roster.GetTwitchUsersByClub | src/trackmania.ts:12-30 | the nested loops build the set of names of all clubs' members, or fail when a fetch fails |

## Left out

- SDK set-up at module load is not modelled (src/twitch.ts:9-27, src/discord.ts:15-19, src/trackmania.ts:1-9). This covers authentication, the EventSub listener, the Discord login and the rate-limited HTTP client. It is network I/O through libraries outside the model.
- The event bus and src/index.ts are not modelled. They only wire events to the Discord methods and run the roster timer and the signal handlers.
- The sweep timer that the `Discord` constructor starts (`setInterval` of `cleanup` every 60 s, src/discord.ts:33-35) is not modelled. `Cleanup` is a method that a caller invokes.
- The `stream.online` and `stream.offline` webhook callbacks (src/twitch.ts:139-144, 148-152) are not modelled. They only fetch the broadcaster, and for an online event the stream, and call `eventHandler`. That is `Twitch.EventHandler(broadcaster, stream, false, now)` with the stream for an online event and `None` for an offline one.
- Channel-update events are not modelled: their callback (src/twitch.ts:172-174) only re-emits `update`, and nothing listens to it. Opening and stopping that subscription is modelled.
- Remote calls are replaced by inputs:
  - `getUsersByNames` is the resolved user list;
  - `getUserById` is a `directory` map;
  - `getStream` is a `live` map;
  - `getSubscriptions` is a `snapshot` of its first page (`.data`), each entry reduced to its type and `broadcaster_user_id`.
- The user-name argument of `subscribe` and its set-to-array conversion (src/twitch.ts:58-62) are not modelled. The model starts from the resolved users.
- Subscribe requests are modelled as log entries in roster order. The concurrency of `Promise.all` (src/twitch.ts:156) is not modelled.
- Every async method is modelled as one atomic step. In the source, webhook callbacks, the 60-second `cleanup` timer and the hourly `subscribe` can interleave at each `await`. The invariants `Tracked` and `Consistent`, and every lemma about a sequence of calls, are proved only for calls that do not interleave. Two examples show what interleaving allows:
  - `message` can read a reference (src/discord.ts:117) and wait on `edit` while `cleanup` deletes that entry (src/discord.ts:93-94, 79-82). The source then ends with no entry and a deleted message, which no order of whole calls produces.
  - Two `manageUpdateEventSubscription` calls for one user can both find no handle (src/twitch.ts:160) and both subscribe (src/twitch.ts:170-172). One handle is then never stopped.
- Exceptions from remote calls are not modelled, except for Trackmania pages. For example, a failing `message.delete()` would skip the map removal, and a rejected subscribe would reject the whole run. A Trackmania page past the end of the oracle is a failed request, which fails the fetch.
- Subscriptions.ReconcileCovers and Subscriptions.SecondRunQuiet assume that the run leaves no channel-update handle with a user off the roster. The code does not guarantee this: `StaleUpdateLeaks` is a run that leaves one.
- The remote state after a run (`RemoteAfter`) takes a channel-update subscription opened before the run to be in the snapshot. The model does not check that the snapshot and the handle map agree.
- Embed construction is not modelled: colour, footer, URL and the lower-casing of the user name (src/discord.ts:137-151). An `Embed` keeps the title, the online flag, the description and the timestamp.
- `stream.startDate ?? new Date()` is not modelled: a stream always has a start date here.
- Channel lookup and its two failure paths are not modelled: a missing channel (cleanup, then `process.exit(1)`) and a channel that is not text-based (src/discord.ts:105-110, 132-134). The model assumes the configured text channel exists.
- Clocks are the parameter `now`:
  - `cleanup` reads `Date.now()` at most twice per entry (src/discord.ts:91, 93): not at all with `immediately` set, and a second time only for an offline entry that is not yet 48 h old, while the model uses one `now` for the whole sweep;
  - every `offline` and `unsubscribed` event reads `new Date` as it is emitted (src/twitch.ts:184, 191), while the model uses one `now` for a whole `subscribe` run.
- Notifications.Discord.Cleanup: the model visits entries in any order. The source follows the map's insertion order.
- `message` mutates the stored reference object in place. The model replaces the map entry with the updated value. Nothing else holds that object, so nothing observes the difference as long as calls do not interleave.
- Member records with `meta` or `meta.twitch` set to `null` are not modelled; the model has only present or absent values. A `null` `meta` passes the `!== undefined` check, so reading `meta.twitch` throws. A `null` `meta.twitch` passes its check too, and `null` is added to the set (src/trackmania.ts:23-24).
- Twitch users are identified by id. The ids that `getUserById` returns are not checked against the ids asked for.
