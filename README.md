# Timeline bookkeeping of a multi-feed social-network client

A Dafny model of the live-timeline logic of the Whalebird desktop client:

- **Status reconciliation** (`updateStatus`): when a rendered status is refreshed, the new
  version is folded into the list slot by slot, four cases tried in order. The live timeline
  and the profile timeline carry textually identical copies; module `Reconcile` models both
  with one definition.
- **Live timeline** (module `LiveTimeline`, class `Timeline`): the rendered `statuses`, the
  `unreads` buffer of statuses that arrived while the reader was scrolled away from the top,
  and the `firstItemIndex` handed to the virtualised list, which starts at 2147483647 and drops
  by the size of every batch flushed from the buffer. The streaming `update` handler, the flush
  (`prependUnreads`), pagination (`loadMore`), `reload`, the refresh hook and the page-request
  options are methods and functions over these fields. The JavaScript builtins the flush is
  written with (`reverse`, and `slice` with negative indices) are modelled in `JsArray`.
- **Profile timeline** (module `ProfileTimeline`): a list replaced wholesale on load and
  refreshed through the same reconciliation.
- **Timeline space store** (module `TimelineSpace`, class `Store`): the store's state, its
  one-field mutations, and the actions that bind, start, stop and unbind the streamings and
  fan refreshed statuses and deletes out to the per-timeline stores. Requests to the main
  process and commits to the per-timeline stores are recorded in order as `Command`s; the
  listener table of the user stream is a multiset of account ids. The store's invariant
  `Valid()` says the user stream has listeners registered exactly once, for the bound account,
  and none when nothing is bound; every action preserves it when the actions run one at a time.

Where the intended design of the synchronisation engine differs from the code, the model
follows the code:

- The flush takes the OLDEST (at most 30) unread statuses, keeps them newest first, and empties
  the buffer, so unread statuses beyond the first 30 are lost (see Findings); the design keeps
  the most recent batch and leaves the overflow in the buffer.
- An incoming boost whose target is shown as a plain slot replaces that slot by the target
  (`status.reblog`), not by the boost.
- A live update is prepended without any de-duplication by id, and without moving the
  first-item index.
- Binding the user stream while another account is bound does not fail: it first unbinds the
  previous account (`waitToUnbindUserStreaming`), then binds.

## Model

| member | source | states |
|---|---|---|
| `Reconcile.ReconcileSlot` | renderer/components/timelines/Timeline.tsx:137-149 | a reconciled slot keeps its id, and a slot none of the four cases concerns is returned unchanged |
| `Reconcile.UpdateStatus` | renderer/components/timelines/Timeline.tsx:136-151 | same length, the same ids slot by slot (nothing inserted, removed or reordered), and slots the incoming status does not concern are unchanged |
| `Reconcile.UpdateStatusConcat` | renderer/components/timelines/Timeline.tsx:137 | the update distributes over concatenation: each output slot depends only on the input slot at its position |
| `Reconcile.UpdateStatusReplacesSameId` | renderer/components/detail/profile/Timeline.tsx:25-26 | a slot with the incoming id becomes the incoming status, even when the slot is a boost (the id test comes first) |
| `Reconcile.UpdateStatusRefreshesTarget` | renderer/components/detail/profile/Timeline.tsx:27-28 | a boost of the incoming status keeps its own id, author and content, and only its embedded target is replaced |
| `Reconcile.UpdateStatusUnwrapsBoost` | renderer/components/detail/profile/Timeline.tsx:29-30 | an incoming boost turns a plain slot holding its target into the target itself, not the boost |
| `Reconcile.UpdateStatusSharedTarget` | renderer/components/timelines/Timeline.tsx:144-145 | a boost of the same target as an incoming boost keeps its own fields and embeds the incoming boost's target |
| `Reconcile.UpdateStatusReflects` | renderer/components/timelines/Timeline.tsx:136-151 | for an incoming status at most one boost deep, afterwards every slot with its id holds it and every boost of it embeds it |
| `Reconcile.UpdateStatusIdempotent` | renderer/components/detail/profile/Timeline.tsx:23-38 | refreshing twice with the same status equals refreshing once, when the incoming status is at most one boost deep |
| `Reconcile.IdempotenceNeedsWellFormed` | renderer/components/detail/profile/Timeline.tsx:27-30 | a concrete incoming boost whose target boosts it back changes the list again on a second refresh |
| `JsArray.Reverse` | renderer/components/timelines/Timeline.tsx:168 | `reverse()` keeps the length and puts item `i` at position `len-1-i` |
| `JsArray.Slice` | renderer/components/timelines/Timeline.tsx:168-169 | `slice(start, end)` has `max(end - start, 0)` items (indices resolved from the end when negative, clamped to the length), item `i` being `s[start + i]`; `slice(0, n)` is the first `min(n, len)` items and `slice(0, -n)` all but the last `n` |
| `JsArray.KeepLast` | renderer/components/timelines/Timeline.tsx:168 | reverse, keep the first `n`, reverse back yields the last `min(n, len)` items in their original order |
| `JsArray.DropLastAll` | renderer/components/timelines/Timeline.tsx:169 | `slice(0, -n)` of at most `n` items is empty |
| `LiveTimeline.PageRequest` | renderer/components/timelines/Timeline.tsx:106-110 | every page request asks for 30 statuses and carries `max_id` exactly when a non-empty cursor is given |
| `LiveTimeline.UnreadBatch` | renderer/components/timelines/Timeline.tsx:168 | the flushed batch holds `min(len, 30)` statuses and is the oldest end of the buffer, in buffer order |
| `LiveTimeline.AsWrittenRemains` | renderer/components/timelines/Timeline.tsx:169 | what the flush leaves in the buffer, computed from the batch as written, is always empty |
| `LiveTimeline.AsWrittenDropsOverflow` | renderer/components/timelines/Timeline.tsx:168-170 | with more than 30 unread statuses, remainder and batch together are only the oldest 30 of the buffer, so the newer ones are lost |
| `LiveTimeline.IntendedRemains` | renderer/components/timelines/Timeline.tsx:169 | the corrected remainder keeps exactly the statuses the batch did not take |
| `LiveTimeline.IntendedRemainsConserves` | renderer/components/timelines/Timeline.tsx:169 | corrected remainder followed by batch is the whole buffer, and the remainder is empty exactly when at most 30 statuses were unread |
| `LiveTimeline.Timeline.constructor` | renderer/components/timelines/Timeline.tsx:24-26 | the component starts with no statuses, no unread statuses and first-item index 2147483647 |
| `LiveTimeline.Timeline.OnUpdate` | renderer/components/timelines/Timeline.tsx:85-91 | scrolled more than 10 px away from the top, a live status is prepended to the buffer and the list is untouched; otherwise it is prepended to the list and the buffer is untouched; the first-item index never moves |
| `LiveTimeline.Timeline.PrependUnreads` | renderer/components/timelines/Timeline.tsx:166-174 | the oldest `min(len, 30)` unread statuses go to the front of the list, the buffer is emptied, the first-item index drops by the batch size so every old row keeps its index, the answer is false, and the index plus all statuses ever flushed stays 2147483647 |
| `LiveTimeline.Timeline.LoadMore` | renderer/components/timelines/Timeline.tsx:158-164 | the request's cursor is the id of the last rendered status, and the fetched page is appended after an unchanged prefix |
| `LiveTimeline.Timeline.Reload` | renderer/components/timelines/Timeline.tsx:153-156 | the list becomes the freshly fetched first page, requested without a cursor; buffer and first-item index are kept |
| `LiveTimeline.Timeline.Refresh` | renderer/components/timelines/Timeline.tsx:221 | a refreshed status is reconciled into the list, which keeps its ids slot by slot |
| `ProfileTimeline.Timeline.constructor` | renderer/components/detail/profile/Timeline.tsx:11 | the profile list starts empty |
| `ProfileTimeline.Timeline.Load` | renderer/components/detail/profile/Timeline.tsx:13-21 | with a user id, the list is replaced wholesale by the fetched statuses; without one it is unchanged |
| `ProfileTimeline.Timeline.Refresh` | renderer/components/detail/profile/Timeline.tsx:47 | a refreshed status is reconciled into the profile list with the same function as the live timeline, keeping length and ids |
| `TimelineSpace.EffectiveTootMax` | src/renderer/store/TimelineSpace.ts:78-84 | the stored limit is never 0: a truthy server value is kept, null or 0 becomes 500 |
| `TimelineSpace.OptionalStreams` | src/renderer/store/TimelineSpace.ts:256-278 | the optional streamings visited are exactly those whose flag is set, never the user streaming, each once |
| `TimelineSpace.Requests` | src/renderer/store/TimelineSpace.ts:279-289 | one request per streaming, all of the given kind, and a request names a streaming exactly when it is in the list |
| `TimelineSpace.UpdateTargets` | src/renderer/store/TimelineSpace.ts:439-453 | a refreshed status goes to home, notifications and mentions first, then to each optional timeline exactly when its flag is set, each once |
| `TimelineSpace.UpdateCommands` | src/renderer/store/TimelineSpace.ts:440-451 | one `updateToot` commit of the status per target timeline, and a timeline receives it exactly when it is a target |
| `TimelineSpace.DeleteCommands` | src/renderer/store/TimelineSpace.ts:324-326 | one `deleteToot` commit of the id per target timeline, and a timeline receives it exactly when it is a target |
| `TimelineSpace.Store.constructor` | src/renderer/store/TimelineSpace.ts:41-53 | the initial state: blank account, nothing bound, not loading, no emojis, limit 500, default unread flags, Mastodon, no listeners |
| `TimelineSpace.Store.UpdateAccount` | src/renderer/store/TimelineSpace.ts:66-68 | overwrites the account and no other field |
| `TimelineSpace.Store.UpdateBindingAccount` | src/renderer/store/TimelineSpace.ts:69-71 | overwrites the binding account and no other field |
| `TimelineSpace.Store.ChangeLoading` | src/renderer/store/TimelineSpace.ts:72-74 | overwrites the loading flag and no other field |
| `TimelineSpace.Store.UpdateEmojis` | src/renderer/store/TimelineSpace.ts:75-77 | overwrites the emojis and no other field |
| `TimelineSpace.Store.UpdateTootMax` | src/renderer/store/TimelineSpace.ts:78-84 | sets the limit to the truthy value given, or to 500, and no other field |
| `TimelineSpace.Store.UpdateUnreadNotification` | src/renderer/store/TimelineSpace.ts:85-87 | overwrites the unread flags and no other field |
| `TimelineSpace.Store.ChangeSns` | src/renderer/store/TimelineSpace.ts:88-90 | overwrites the server kind and no other field |
| `TimelineSpace.Store.UnbindUserStreaming` | src/renderer/store/TimelineSpace.ts:401-414 | with an account bound its listeners are removed and the binding cleared; with none bound nothing changes |
| `TimelineSpace.Store.WaitToUnbindUserStreaming` | src/renderer/store/TimelineSpace.ts:454-462 | answers true with nothing bound and no listeners, after exactly one unbind attempt when something was bound and none otherwise |
| `TimelineSpace.Store.BindUserStreaming` | src/renderer/store/TimelineSpace.ts:293-300 | fails with "Account is not set" and changes nothing when the account id is empty; otherwise releases the previous binding and binds the account with exactly one registration of its listeners |
| `TimelineSpace.Store.OnUserUpdate` | src/renderer/store/TimelineSpace.ts:301-308 | a status on a listened user stream is appended to home and home is marked unread; on any other account's stream nothing happens |
| `TimelineSpace.Store.OnUserNotification` | src/renderer/store/TimelineSpace.ts:309-315 | a notification on a listened user stream is appended to notifications, which is marked unread |
| `TimelineSpace.Store.OnUserMention` | src/renderer/store/TimelineSpace.ts:316-322 | a mention on a listened user stream is appended to mentions, which is marked unread |
| `TimelineSpace.Store.OnUserDelete` | src/renderer/store/TimelineSpace.ts:323-327 | a delete on a listened user stream goes to exactly home, notifications and mentions |
| `TimelineSpace.Store.BindStreamings` | src/renderer/store/TimelineSpace.ts:256-267 | the user streaming is always bound (when the account has an id), and each optional streaming exactly when its flag is set |
| `TimelineSpace.Store.StartStreamings` | src/renderer/store/TimelineSpace.ts:268-278 | starts only the flagged optional streamings, never the user streaming |
| `TimelineSpace.Store.StopStreamings` | src/renderer/store/TimelineSpace.ts:279-283 | stops all three optional streamings whatever the flags |
| `TimelineSpace.Store.UnbindStreamings` | src/renderer/store/TimelineSpace.ts:284-289 | unbinds the user streaming and all three optional streamings whatever the flags |
| `TimelineSpace.Store.UpdateTootForAllTimelines` | src/renderer/store/TimelineSpace.ts:439-453 | commits the status to the user-stream timelines and the flagged optional ones, and answers true |

## Findings

| source | as written | input that shows it | evidently intended | confidence | as-written member | corrected member |
|---|---|---|---|---|---|---|
| renderer/components/timelines/Timeline.tsx:169 | the statuses left in the buffer are `u.slice(0, -30)`, taken from the batch `u`, which never holds more than 30 | 31 distinct unread statuses: the oldest 30 are flushed, and the newest ends up neither in the list nor in the buffer | `unreads.slice(0, -30)`: keep the newer statuses that did not fit in the batch for the next flush | high; not executed | `LiveTimeline.AsWrittenDropsOverflow` | `LiveTimeline.IntendedRemainsConserves` |

The class `LiveTimeline.Timeline` reproduces the component as written, so its `PrependUnreads`
empties the buffer; `IntendedRemains` is what a corrected flush would leave in it.

## Left out

- Calls to the main process (`ipcRenderer`) and the actions built only of them: `localAccount`, `fetchAccount`, `loadUnreadNotification`, `watchShortcutEvents`, `removeShortcutEvents`; they are I/O. Stream requests are recorded as `Command`s instead.
- `initLoad`, `prepareSpace`, `detectSNS`, `fetchEmojis`, `fetchInstance`, `fetchContentsTimelines`, `clearContentsTimelines`, `clearAccount`, `clearUnread`: sequences of server calls and dispatches to the per-timeline stores; their state effects are the modelled mutations.
- The server client (megalodon): every fetched page is a parameter of the method that uses it; the choice of endpoint and socket by timeline name (`home`, `local`, `public`, `list_<id>`) is not modelled, and neither is the `null` dereference for a name that matches none of them.
- The handlers registered by `bindLocalStreaming`, `bindPublicStreaming` and `bindDirectMessagesStreaming`, and the error listeners of the `start…Streaming` actions: binding and starting them is recorded as a request; the events they deliver are not modelled.
- The per-timeline stores (`appendTimeline`, `deleteToot`, `updateToot`, `archiveTimeline`, side-menu unread marks): recorded as commits only, so what a delete does to a timeline (removing boosts of the deleted status) is not part of this model.
- The random archiving after a streamed status (`Math.random() > 0.8`): nondeterministic.
- The 500 ms sleep and the asynchronous interleaving of the actions: every action runs to completion as one step. The source suspends inside `bindUserStreaming` (src/renderer/store/TimelineSpace.ts:298) and inside `waitToUnbindUserStreaming` (:459-460), and `bindStreamings` does not await the user bind (:257). So two overlapping user binds can both find nothing bound and both register the listeners, after which every user-stream event is committed twice; and an `unbindStreamings` that runs during the wait is undone when the pending bind resumes. None of these interleavings is modelled.
- TimelineSpace.Store.Valid: "listeners registered exactly once, for the bound account" holds only when the actions run one at a time, as in this model; the overlapping runs above break it.
- React rendering and scheduling: the virtualised list, hotkeys, the compose-box height, the list title, stale closures and batched state updates; each handler is one atomic step on the current state.
- The default unread-notification flags come from a constants file that is not part of this model; the store's constructor takes them as a parameter.
- The navigation component (`renderer/components/detail/Detail.tsx`): routing only.
- LiveTimeline.Timeline.LoadMore: requires a non-empty list; the component only mounts the list that calls it once it has statuses, and on an empty list the source would throw.
- TimelineSpace.Store.UpdateTootMax: limits are integers, so a `NaN` limit (falsy in the source, hence 500) is not represented.
- LiveTimeline.Timeline.OnUpdate: a missing scroller is `None`; the scroll offset is a real number of pixels.
