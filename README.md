# Cities Skylines 2 patch-notes bot: verified model of its delivery core

The bot watches the Paradox forum for the newest Cities Skylines 2 thread.
When a new thread appears, it has its text reformatted and posts it to every
subscribed Discord guild channel and direct-message user. This project
models the deterministic logic inside that glue and proves properties of it:

- **Chunking** (`chunking.dfy`). The notes are split with
  `content.match(/.{1,2000}/gs) || []`. Recipient entries are split with
  `slice(i, i + 10)`. Both are one generic greedy split, `Slices`. Strings
  are `seq<char>`, with one `char` standing for one UTF-16 code unit.
- **Retry** (`retry.dfy`). `retry(fn, retries, delay)`: `fn` is given by
  the outcome of each of its calls (`fn(i)` resolves or throws). The delay is
  not waited; the model adds up the milliseconds that would be spent pausing.
- **Recipient registry** (`registry.dfy`). A class over the
  `serverConfigs` and `dmUserConfigs` maps. `/setup` in a guild and in a DM,
  `resetServerConfig` and `loadConfig` are its methods. `saveConfig` is an
  abstract event that appends the written document to `saved`.
- **Fan-out** (`fanout.dfy`). `distributeUpdatesToServers` as imperative
  loops: batches of ten, each member of a batch in turn, each part in turn.
  A fake transport replaces Discord. It holds the set of ids (channel ids
  and user ids) that cannot be resolved and, per id, the index of the send
  that throws. The result is the ordered trace of the sends that went
  through. `Promise.allSettled` runs its members one after another in list
  order; `setTimeout` pauses are no-ops.
- **Permission gate** (`permissions.dfy`). `checkAdminPermission`.
- **Change detection and cache** (`monitor.dfy`). A class with
  `latestThreadUrl` and `lastPatchNotesData`. Its methods are
  `checkForUpdates`, `/forceupdate`, `/test` and the initial fill when the
  bot becomes ready. Each one is tied to a pure step function, and the
  lemmas about polling sequences are stated on those functions. The
  scraper and the formatting service are parameters: a URL fetch resolves
  to a URL or `null`, a content fetch resolves to the formatted text or
  `null`, and either may throw.

Behaviour of the code worth knowing:

- **The cached URL advances early.** `checkForUpdates` stores a new thread URL
  *before* fetching its notes (bot.js:294). So a thread whose notes fail to
  load is not fetched again: no later poll distributes it while the latest
  URL stays the same (`NoReprocessing`, `SameUrlNeverDistributed`). It can
  still be distributed by `/test`, or by a poll after a `/forceupdate` or a
  restart whose URL fetch resolved to `null` (`ForceNullThenPollRedistributes`,
  `PollRecordsNewUrl`).
- **The DM flag is ignored.** Direct-message distribution sends to every
  entry of `dmUserConfigs`, whatever its `enabled` flag (`DmEnabledIgnored`).
- **`/forceupdate` does not distribute.** It caches a new thread's notes
  without sending them. A later poll then finds the URL already cached, so
  no poll distributes that thread while the latest URL stays the same
  (`ForceUpdatePreemptsPoll`, `SameUrlNeverDistributed`). It can still be
  distributed by `/test`, or by a poll after a `/forceupdate` or a restart
  whose URL fetch resolved to `null`; `/patchnotes` (not modelled) posts the
  cached notes on request.
- **`/test` leaves the cached URL alone.** It caches and distributes notes but
  does not change `latestThreadUrl`.
- **A thread can be delivered twice.** A `/forceupdate` whose URL fetch
  resolves to `null` stores `null` as the cached URL (bot.js:636), so the
  next poll sees the current thread as new and distributes it again, even
  when it was distributed before (`ForceNullThenPollRedistributes`). In the
  same way, a thread sent by `/test` is sent again by the next poll when the
  cached URL differs from it, because `/test` does not record its URL.

## Model

| member | source | states |
|---|---|---|
| Chunking.Slices | bot.js:310 | the pieces concatenate back to the input; each has 1..n elements; all but the last have exactly n; there are ceil(len/n) of them |
| Chunking.Chunks | bot.js:310 | joining the 2000-unit chunks reproduces the notes exactly; every chunk has 1..2000 units; only the last may be shorter; empty notes give no chunks, as the fallback to an empty list does |
| Chunking.SlicesUnique | bot.js:310 | the greedy split is the only split into non-empty pieces of at most n where every piece but the last is full |
| Chunking.ChunksOf4500 | bot.js:310 | a 4500-unit text becomes exactly three chunks of 2000, 2000 and 500 |
| Retry.RunRetry | bot.js:72-82 | the counted loop settles as `RetrySpec` says (value of the first success, last error rethrown, or undefined); one pause of `delay` ms separates consecutive attempts and none follows the last |
| Retry.RetryFromCharacterized | bot.js:73-80 | from loop index i: calls stay within the bound; every call before the last failed; the result is a value exactly when the last call succeeded; an error is rethrown only after the final attempt, and it is that attempt's error |
| Retry.RetryCharacterized | bot.js:72-82 | fn is called at most `retries` times; with `retries <= 0` it is never called and retry yields undefined; a returned value is the first success; a thrown error is the last attempt's error |
| Retry.AllFail | bot.js:76-77 | when every attempt fails, all attempts are made and the last error is rethrown |
| Retry.FirstAttemptSucceeds | bot.js:75 | a successful first call is the only call and its value is returned |
| Registry.Registry.constructor | bot.js:28-29 | both registries start empty |
| Registry.Registry.Save | bot.js:46-52 | a save records the document holding both current mappings |
| Registry.SectionOrEmpty | bot.js:35-36 | each section with its fallback to `{}`: a present section is taken as it is, a missing one reads as an empty mapping |
| Registry.Registry.Load | bot.js:32-43 | with no file the state is kept; otherwise each section replaces its mapping, and a missing section yields an empty mapping |
| Registry.Registry.SetupServer | bot.js:426-431 | the guild's entry becomes {channelId, pingRoleId or null}; every other guild entry and the DM registry are unchanged; one save |
| Registry.Registry.SetupDm | bot.js:411-415 | the user's entry becomes {enabled: true}; every other entry and the guild registry are unchanged; one save |
| Registry.Registry.ResetServer | bot.js:55-61 | removes only that guild's entry and saves; when the entry is absent nothing changes and nothing is saved |
| Registry.SaveThenLoad | bot.js:32-52 | loading the document just saved restores both mappings |
| Fanout.RoleMention | bot.js:327 | a set, non-empty role id gives `<@&` + id + `>`; no id or an empty one gives nothing, and only then is the mention empty |
| Fanout.HeaderShape | bot.js:328-360 | a guild header is the mention (or nothing), then ` **New Cities Skylines 2 Patch Notes Available!**\n`, then the URL; a user header is `**New Cities Skylines 2 Patch Notes!**\n` and the URL, with no mention |
| Fanout.PartFlags | bot.js:333 | part flags are 0 or SuppressNotifications (4096), and 4096 exactly for guild parts after the first; direct messages are never flagged |
| Fanout.SendTo | bot.js:319-371 | one recipient's sends are its plan (header, then every part), cut at an unresolvable destination or at the first send that throws |
| Fanout.DeliverBatch | bot.js:319-371 | the sends for a batch are each member's own delivery, in member order |
| Fanout.DeliverInBatches | bot.js:316-345 | the batches processed are `Slices(entries, 10)` and the trace is every recipient's delivery in entry order |
| Fanout.Distribute | bot.js:308-375 | the notes are chunked once; all guild batches are delivered, then all DM batches; each batch list is the 10-slicing of its entries |
| Fanout.BatchesPartition | bot.js:313-317 | N entries give ceil(N/10) batches of 1..10 members; the batches in order are exactly the entries; no entries give no batches |
| Fanout.FailureIsolation | bot.js:319-342 | within one list of recipients with distinct destinations, each recipient receives exactly its own delivery, whatever fails for the others |
| Fanout.DeliveryDependsOnOwnIdOnly | bot.js:320-341 | a recipient's delivery depends only on how the transport treats its own channel or user id |
| Fanout.DeliveredStopsAtFailure | bot.js:320-341 | the sends that went through are a prefix of the plan: none when unresolvable, the first k when send k throws, all 1 + parts otherwise |
| Fanout.ServerSendSequence | bot.js:327-336 | a guild with a working channel gets 1 + parts sends: `<@&role>` (or nothing) + announcement + URL, then every chunk in order; part 0 has flags 0 and later parts SuppressNotifications (4096); the chunks rejoin to the notes |
| Fanout.DmSendSequence | bot.js:360-365 | a working DM user gets the header `**New Cities Skylines 2 Patch Notes!**\n` + URL with no mention, then every chunk in order, unflagged |
| Fanout.ServersBeforeDms | bot.js:312-349 | in a distribution every guild send comes before every DM send |
| Fanout.DistributionPerRecipient | bot.js:308-375 | with unique keys, every configured guild and every DM user receives exactly its own delivery from the whole distribution |
| Fanout.NoRecipientsNoSends | bot.js:316-349 | no guilds and no users: no batches and no sends |
| Fanout.DmEnabledIgnored | bot.js:352-365 | DM delivery does not depend on the entries' `enabled` flags |
| Permissions.CheckAdminPermission | bot.js:378-393 | DMs always pass; in a guild only members holding Administrator pass (a missing member is refused); a refusal carries the administrators-only reply |
| Monitor.PollStep | bot.js:282-305 | no guild configured: nothing fetched, nothing changed, whatever DM users exist; at most 3 calls to each fetcher; notes are fetched only after a new, non-empty URL was cached; distributed notes have content and become the cache together with their URL; otherwise the cached notes are kept |
| Monitor.ForceStep | bot.js:635-656 | the reply is FetchFailed exactly on a null or empty URL, UpToDate exactly on the cached URL, ContentFailed exactly when a new URL's notes are empty, ForceError exactly when the URL fetch throws or a new URL's notes fetch throws; on CacheUpdated the cache becomes the new URL with its fetched notes |
| Monitor.Monitor.constructor | bot.js:68-69 | both cached values start as null |
| Monitor.Monitor.CheckForUpdates | bot.js:282-305 | the new cache, the numbers of fetch calls and the trace are those of `PollStep`; the trace is the distribution of the new notes, or empty |
| Monitor.Monitor.ForceUpdate | bot.js:635-656 | the new cache and the reply are those of `ForceStep` |
| Monitor.Monitor.TestDistribution | bot.js:606-623 | over an enumeration of the registry, as a poll: never touches the cached URL; caches and distributes exactly when both fetches give a value; otherwise nothing changes and nothing is sent |
| Monitor.Monitor.Startup | bot.js:792-798 | caches the fetched URL, and when it is present caches the content result (null included); a thrown error stops the fill |
| Monitor.PollKeepsCacheOnKnownUrl | bot.js:292 | a null URL, a thrown error or the cached URL leaves both cached values unchanged and fetches no notes |
| Monitor.PollRecordsNewUrl | bot.js:292-300 | a new URL is cached whether or not its notes arrive; the notes are fetched 1..3 times; they are cached and distributed exactly when they have content |
| Monitor.NoReprocessing | bot.js:292-294 | after a poll that saw a URL, a poll seeing the same URL fetches no notes, distributes nothing and keeps the cache, even if the first poll's fetch failed |
| Monitor.SameUrlNeverDistributed | bot.js:290-294 | once a URL is cached, any number of polls that keep seeing it fetch no notes, distribute nothing and keep the cache |
| Monitor.PollScenarioAAB | bot.js:290-300 | polls seeing A, A, B fetch and distribute A once, do nothing on the second A, then fetch and distribute B |
| Monitor.ForceOverwritesUrl | bot.js:635-656 | `/forceupdate` stores the fetched URL even when it is null; an unchanged URL leaves the notes untouched; the notes change only with a CacheUpdated reply |
| Monitor.ForceNullThenPollRedistributes | bot.js:636-641 | a `/forceupdate` whose fetch gives `null` replies FetchFailed and clears the cached URL; the next poll that sees the previously cached thread fetches and distributes its notes again |
| Monitor.ForceUpdatePreemptsPoll | bot.js:636-648 | a thread first seen by `/forceupdate` is not distributed by the next poll |
| Monitor.PollDeliversToEachRecipient | bot.js:297-299 | when a poll distributes, each configured guild and each DM subscriber receives exactly its own delivery of the new notes |

## Left out

- The Puppeteer login and scraping are not modelled: `loginToForum` and the
  bodies of `getLatestThreadUrl` and `getLatestPatchNotesContent`. Only
  their results are kept, as fetch parameters.
- The OpenAI formatting call (`processPatchNotesWithChatGPT`) is a foreign
  service. Its result is part of the content-fetch parameter.
- The Discord client is replaced by the fake transport: channel and user
  fetches, sends, interaction replies and deferrals, and slash-command
  registration.
- `/patchnotes`, `/check`, `/help`, the button replies and the welcome
  messages are command-surface glue and are not modelled.
- File I/O and JSON are not modelled. A saved document is a value, and
  `loadConfig` receives the parsed document or nothing.
- Timing is not modelled: the `setTimeout` pauses and the two-minute
  `setInterval`.
- Concurrency is not modelled. Each batch runs sequentially in list order,
  and overlapping polls are not considered.
- Monitor.Monitor.CheckForUpdates: `Object.entries` order is not modelled.
  The caller supplies any enumeration of the two maps, and every property
  holds for every such order. The registry may change while a poll waits on
  a fetch; the model distributes to the snapshot it is given.
- Fanout.SendTo: a channel fetch that throws and one that returns null are
  the same skip. The send that throws is not in the trace. The fake
  transport counts failing sends per recipient, not per shared channel.
- Chunking.Chunks: one `char` is one UTF-16 code unit, so the split cannot
  show a surrogate pair cut in two.
- Registry.Registry.ResetServer: in a DM `/reset` passes a null guild id,
  which matches no entry. The model takes the id as a string.
- Retry.RunRetry: `fn` is a function from call index to outcome rather
  than a finite list, so no list length needs to be assumed.
