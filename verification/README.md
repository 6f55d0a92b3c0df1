# Verified model of the chat and agent backend

The backend is a set of small stateful cores behind database, LLM and HTTP ports. This project models those cores in
Dafny and proves what they keep in every run: quota counters on a Gregorian and ISO-week calendar, three concurrent
protocols, three caches, three renderings of one conversation, two streaming readers, a search with a coarse
prefilter, a session cap and a layered tool policy.

Check everything with `dafny verify dfyconfig.toml`.

## How it is modelled

- One module per core. Code that changes fields or buffers is a class or a method over an array with loops and
  invariants; pure code is functions and lemmas.
- Concurrency is an interleaved step system: every SQL statement or transaction, and every step between two lock
  operations, is one atomic step, every caller has a position, and a run is any sequence of steps. Where the code of a
  step is also given as a method, the method is proved equal to the step.
- Clocks, fresh ids, database failures and the behaviour of an inner reader are parameters. A fresh id is one that no
  row and no caller has.
- Instants of the calendar are nanoseconds since 0001-01-01T00:00:00Z, so every instant from year 1 on is covered.

## Modules

| module | what it covers |
|---|---|
| Calendar, Quota | period keys and reset times; usage counters, checks, conservation |
| LogSink | bounded channel, worker, reader-writer lock, close |
| Hub, Rooms, Messages | connections and broadcasts; one-to-one rooms; sends, edits, deletions and read positions |
| TypingCache, Providers | caches with the fill split into read and store |
| Transcript, ToolCalls | three renderings of one history; reassembly of tool calls |
| Decompressor, BlobReader | streaming readers |
| Registry | discovery through a LIKE prefilter and in-place compaction |
| Sessions | session cap, conversation bodies |
| ToolPolicy, PolicySnapshot | allow and deny lists, their merge; the manager's snapshot, sequential and concurrent |
| Text, Lists, Options | strings, lists and optional values the others share |

## Where the code does less than it promises

Each has a lemma with a concrete input or run and the exact condition under which the promise holds; a failed reload is
a case of the method's own contract.

- At most one provider is active throughout exactly when no seeding saves an active row while one is active
  (`Providers.OneActiveThroughout`, `Providers.TwoSeedingsTwoActive`): the seeding reads and writes in separate
  statements and neither `is_active` nor `name` has a unique index.
- The search comment says that the prefilter has no false negatives. It has, for values with `<`, `>`, `&`, control
  characters or U+2028 and U+2029, which Go's encoder escapes (section 7 of RFC 8259 allows it) and the guard does not
  exclude (`Registry.AmpersandIsMissed`, `Registry.DiscoverIsExact`, `Registry.ExactOnRegistered`).
- The member override is documented as a tightening of the global policy. Two disjoint allow lists open everything
  that neither denies (`ToolPolicy.ClashOpensUp`, `ToolPolicy.MergeIsConjunction`).
- Union is documented to drop repeats. It does so exactly when both lists have entries or there were none
  (`ToolPolicy.UnionKeepsRepeats`, `ToolPolicy.UnionDropsRepeats`).
- A second, concurrent Close of the log sink may return before the flush (`LogSink.SecondCloseMayReturnEarly`,
  `LogSink.CloseReturnsFlushed`).
- Pair keys can collide for ids with a colon (`Rooms.DirectKeyCollides`). A pair's key is its own exactly when every
  ordered split of the key at a colon gives back that pair (`Rooms.KeyNamesOnePair`).
- A fill that straddles a write leaves a stale entry in all three caches, and removing a room as administrator leaves
  its member list cached (`TypingCache.StraddlingFillStaysStale`, `TypingCache.RemovedRoomStaysCached`,
  `Providers.StraddlingFillGoesStale`, `PolicySnapshot.OlderReloadStoresLast`). Once no
  invalidation or reload is outstanding they are stale exactly so (`TypingCache.StaleExactlyWithExcuse`,
  `Providers.StaleExactlyFromTheSet`, `PolicySnapshot.FreshExactlyFromTheStores`).
- Two pushes of one conversation at once can lose a body (`Sessions.RacingPushesLoseABody`,
  `Sessions.OverlappingPushesMixARow`). A push that overlaps no other push of its conversation never does
  (`Sessions.AlonePushKeepsItsBody`), and the two ways it can happen are exact, step by step
  (`Sessions.OnlyAnotherPushTakesTheBody`, `Sessions.UpsertShowsTheBody`).
- n pushes at once can pass the cap by n - 1 and no more (`Sessions.BoundIsReached`, `Sessions.CapHolds`); the cap is safe
  exactly for one caller (`Sessions.CapIsSafeForOneOnly`).
- A push whose reload fails reports an error with its row written (`Sessions.Service.UpsertConversation`).
- A deletion stamped with a clock at or before the epoch is no deletion, and undoes an earlier one
  (`Messages.DeletionNeedsTheClock`, `Messages.DeletedStaysDeleted`).

## Model

| member | source | states |
|---|---|---|
| Calendar.KeyChangesExactlyAtReset | com/ohmyagent/internal/domain/quota/model.go:47-88 | For every window and instant from year 1 on, the period key is unchanged at a later instant exactly when that instant is before ResetAfter: the reset is the least later instant with another key, and the old key never returns |
| Calendar.KeyNamesPeriod | com/ohmyagent/internal/domain/quota/model.go:77-88 | Two instants have the same key exactly when they lie in the same day, ISO week or month |
| Calendar.WindowsNeverCollide | com/ohmyagent/internal/domain/quota/model.go:75-88 | Keys of different windows differ at any two instants, so one table can hold all three counters |
| Calendar.DayRefinesWindow | com/ohmyagent/internal/domain/quota/model.go:75-88 | Equal day keys force equal week and month keys |
| Calendar.IsoWeekIsStandard | com/ohmyagent/internal/domain/quota/model.go:77-88 | The week date used by the weekly key is that of section 4.1.4 of ISO 8601:2004: Monday weeks counted from the one holding 4 January, 1 to 53, year ends included |
| Calendar.IsoWeekIsOnly | com/ohmyagent/internal/domain/quota/model.go:77-88 | No other year and week number fit the standard's rule for that day |
| Calendar.DateUnique | com/ohmyagent/internal/domain/quota/model.go:77-88 | Day numbers and Gregorian dates correspond one to one |
| Calendar.SamePeriod | com/ohmyagent/internal/domain/quota/model.go:47-61 | A period is exactly the days from its first day up to the computed reset day |
| Calendar.YearStartIsClosed | com/ohmyagent/internal/domain/quota/model.go:47-61 | A year starts 365 days per earlier year, plus one per earlier fourth, less one per earlier hundredth, plus one per earlier four-hundredth year after the first day: the calendar is the Gregorian one |
| Calendar.CivilDateIsGregorian | com/ohmyagent/internal/domain/quota/model.go:77-88 | A date that its month has is the date of a day exactly when the closed formula, with a table of month starts, numbers it so |
| Calendar.CivilDateHasNumber | com/ohmyagent/internal/domain/quota/model.go:77-88 | Every day has such a date |
| Calendar.UnixEpochIsThursday | com/ohmyagent/internal/domain/quota/model.go:47-61 | 1 January 1970 is 62135596800 s after 1 January 1 and a Thursday; Sundays are every seventh day, midnights 86400 s apart |
| Calendar.KnownDates | com/ohmyagent/internal/domain/quota/model.go:77-88 | Four days with their dates and week dates: 15 January 2026, both sides of the year end of 2004, whose days share week 53, and 30 December 2024, in the next year's week 1 |
| Calendar.KnownInstants | com/ohmyagent/internal/domain/quota/model.go:77-88 | The same days from their Unix times |
| Calendar.DayKeyReads | com/ohmyagent/internal/domain/quota/model.go:77-88 | A day key reads back as year, month and day in 4, 2 and 2 digits between dashes |
| Calendar.WeekKeyReads | com/ohmyagent/internal/domain/quota/model.go:77-88 | A week key reads back as year, -W and two digits of week, the year without leading zero |
| Calendar.MonthKeyReads | com/ohmyagent/internal/domain/quota/model.go:77-88 | A month key reads back as year and month in 4 and 2 digits |
| Quota.CountersBalance | com/ohmyagent/internal/application/quota/service.go:95-107 | Conservation over every run of additions and resets, with failures and clocks in any order: each period's counter is the sum of the day counters of exactly that period's days |
| Quota.WeekIsSevenDays | com/ohmyagent/internal/application/quota/service.go:95-107 | The weekly counter is the sum of the seven day counters, Monday to Sunday |
| Quota.ReportedResetIsExact | com/ohmyagent/internal/application/quota/service.go:77-89 | With no further usage the refusing counter reads 0 at a later instant if and only if that instant is not before the reported reset |
| Quota.NextPeriodReadsZero | com/ohmyagent/internal/application/quota/service.go:77-89 | From the reset on, a counter to which nothing was added later reads 0 |
| Quota.AddMovesReading | com/ohmyagent/internal/adapter/out/db/quota_repository.go:30-49 | One addition raises, by its tokens, exactly the readings of its member whose period holds the instant, and no other reading |
| Quota.AddMovesSum | com/ohmyagent/internal/adapter/out/db/quota_repository.go:30-49 | One addition raises a sum of days by its tokens exactly when its day is among them |
| Quota.ClearEmptiesSum | com/ohmyagent/internal/adapter/out/db/quota_repository.go:84-89 | A reset empties every sum of the member and none of anybody else |
| Quota.Service.Check | com/ohmyagent/internal/application/quota/service.go:56-92 | The verdict is the first window, in day, week, month order, whose positive limit is reached. Allowed: under each of the daily, weekly and monthly limits in force that is positive. Exceeded: that window's own limit, reached by its usage, the windows before it not over, with its key and reset time. A failure exactly when a query it needs fails: the limits, the defaults unless cached, the usage if a limit is positive |
| Quota.Service.Add | com/ohmyagent/internal/application/quota/service.go:95-107 | Blank members and non-positive amounts are ignored; otherwise the counters of the instant's day, week and month grow by the tokens and every other reading stays |
| Quota.Service.Reset | com/ohmyagent/internal/application/quota/service.go:243-248 | Exactly the member's rows go, every other keeps its count; a failure changes nothing |
| Quota.Service.EffectiveLimits | com/ohmyagent/internal/application/quota/service.go:110-131 | Daily, weekly and monthly each: the member's limit if positive, else the default in force; it fails exactly when a query it needs fails |
| Quota.Service.DefaultLimits | com/ohmyagent/internal/application/quota/service.go:43-53 | Defaults come from the cached row until it expires, else from the stored row, which is then cached for 30 s; a failed query changes nothing and fails only a miss. One call is one pass of the run that DefaultsAreRecent is about |
| Quota.DefaultsAreRecent | com/ohmyagent/internal/application/quota/service.go:43-53 | Over runs with changes here and by other instances, every default returned is the row as a query found it less than 30 s before, not counting the time that query took |
| Quota.ChangesAreServed | com/ohmyagent/internal/application/quota/service.go:43-53 | A default changed here is what the very next call returns; one changed elsewhere is what the next call returns that finds no cached row in force |
| LogSink.NeverPanics | com/ohmyagent/internal/logger/async.go:56-94 | In every interleaving of any number of Handle calls, Close calls and the worker no send reaches the closed channel, the channel is closed at most once and the buffer stays within its size |
| LogSink.NothingIsLost | com/ohmyagent/internal/logger/async.go:38-69 | Enqueued records are the handled ones, the one in hand and the queued ones, in that order; every call is undecided, handled, in hand, queued, dropped or written directly |
| LogSink.CloseFlushes | com/ohmyagent/internal/logger/async.go:84-94 | When the Close that closed the channel has returned, everything enqueued has been handled |
| LogSink.DropsOnlyWhenFull | com/ohmyagent/internal/logger/async.go:56-69 | A record is dropped only while the sink is open, the buffer full and the worker not waiting |
| LogSink.CloseReturnsFlushed | com/ohmyagent/internal/logger/async.go:84-94 | In every interleaving the step with which a Close returns leaves everything enqueued handled if and only if it is the one that closed the channel, or the queue was empty and the worker idle |
| LogSink.CloseEndsSo | com/ohmyagent/internal/logger/async.go:84-94 | A call of Close returns with the unlock after a refusal or the end of its wait, and with no other step |
| LogSink.RefusedClosePromisesNothing | com/ohmyagent/internal/logger/async.go:84-94 | A Close that finds the flag set returns at once, with the channel closed; everything is written then exactly when the queue is empty and the worker idle |
| LogSink.SecondCloseMayReturnEarly | com/ohmyagent/internal/logger/async.go:84-94 | A run in which a second Close returns while an enqueued record is unwritten: only the first Close promises the flush |
| LogSink.RunsKeepInv | com/ohmyagent/internal/logger/async.go:56-94 | Lock holders, flags, record order and call counts fit the threads' positions in every reachable state |
| LogSink.AsyncSink.HandleLocked | com/ohmyagent/internal/logger/async.go:56-69 | The body under the read lock does what the steps test and send do, drop count included |
| LogSink.AsyncSink.CloseLocked | com/ohmyagent/internal/logger/async.go:84-94 | The body under the write lock does what the steps test and close do; only the closer waits |
| LogSink.AsyncSink.WorkerRound | com/ohmyagent/internal/logger/async.go:38-48 | One round hands the oldest record to the inner handler, or leaves the loop when the closed channel is empty |
| Hub.HubIsSafe | com/ohmyagent/internal/application/messaging/hub.go:25-82 | In every interleaving of connects, disconnects, broadcasts, direct pushes and drains: a member has a key exactly when one of its connections is still connected, every registered channel is open, and no send or close hits a closed channel |
| Hub.PresenceAlternates | com/ohmyagent/internal/application/messaging/service.go:149-162 | Per member the true results of Register and Unregister strictly alternate, starting with online, and the last one says whether the member has a key |
| Hub.BroadcastReaches | com/ohmyagent/internal/application/messaging/hub.go:71-82 | A broadcast appends the payload to a connection once per listing of its member, as far as its queue has room, and changes nothing else |
| Hub.BroadcastOnce | com/ohmyagent/internal/application/messaging/hub.go:71-82 | To distinct ids: exactly once to each connection of a listed member with fewer than 64 payloads waiting, no other queue touched |
| Hub.LeftAreGone | com/ohmyagent/internal/application/messaging/hub.go:39-55 | A disconnected connection is in no member's set |
| Hub.Hub.Register | com/ohmyagent/internal/application/messaging/hub.go:25-36 | Adds an open connection to its member's set; true exactly when the member had no key, which is what the run's Connect announces |
| Hub.Hub.Unregister | com/ohmyagent/internal/application/messaging/hub.go:39-55 | Removes the connection and closes its channel once, drops the member's key with the last one; true exactly then; a repeat does nothing. It is the run's Disconnect |
| Hub.Hub.OnlineAmong | com/ohmyagent/internal/application/messaging/hub.go:58-68 | The ids with a key, in the order asked |
| Hub.Hub.SendToMembers | com/ohmyagent/internal/application/messaging/hub.go:71-82 | The queues afterwards are those of the delivery that BroadcastReaches describes; it is the run's Broadcast |
| Lists.AmongInOrder | com/ohmyagent/internal/application/messaging/service.go:325-340 | Selecting a list by a set keeps all entries of the set and no other, each where it stood: what OnlineAmong, FilterToMembers, Recipients and the intersection select |
| Rooms.DirectKeySymmetric | com/ohmyagent/internal/domain/messaging/model.go:119-124 | The pair's key does not depend on the order of the two ids |
| Rooms.DirectKeyInjective | com/ohmyagent/internal/domain/messaging/model.go:119-124 | On ids without a colon, equal keys mean the same unordered pair |
| Rooms.DirectKeyCollides | com/ohmyagent/internal/domain/messaging/model.go:119-124 | Two different pairs with a colon in an id that share a key |
| Rooms.KeyNamesOnePair | com/ohmyagent/internal/domain/messaging/model.go:119-124 | For every pair: no other pair shares its key if and only if every colon at which the key splits in order splits it into that same pair |
| Rooms.NoColonSplitsOneWay | com/ohmyagent/internal/domain/messaging/model.go:119-124 | Pairs of ids without a colon always meet that condition |
| Rooms.OneRoomPerPair | com/ohmyagent/internal/application/messaging/service.go:83-106 | In every interleaving there is at most one one-to-one room per unordered pair |
| Rooms.CallersAgree | com/ohmyagent/internal/application/messaging/service.go:83-106 | While no room of the pair is deleted, all successful callers for one pair get the same room |
| Rooms.CallerGetsOwnRoom | com/ohmyagent/internal/application/messaging/service.go:83-106 | When the pair's key names that pair alone, that room's members are exactly the caller and the other, whatever ids other rooms are for |
| Rooms.DirectRoomKeepsItsPair | com/ohmyagent/internal/application/messaging/service.go:502-562 | Whatever additions, departures and kicks run beside it, a one-to-one room's members stay exactly its pair for its whole life |
| Rooms.AnswersKept | com/ohmyagent/internal/application/messaging/service.go:83-106 | While no room with the asked key is deleted, every room returned for it still has it |
| Rooms.CreateMakesTheRoom | com/ohmyagent/internal/adapter/out/db/messaging_repository.go:30-63 | With the key free a create makes the pair's room with exactly its two members and returns it; with the key taken it goes on to look again; no other room or member list changes |
| Rooms.QueriesFind | com/ohmyagent/internal/application/messaging/service.go:83-106 | A query that does not fail returns the key's room if there is one, and otherwise the first goes on to create it and the second gives up |
| Rooms.CallsAreChecked | com/ohmyagent/internal/application/messaging/service.go:83-106 | A call for a blank or the caller's own id fails; any other goes on with the trimmed id |
| Rooms.WritesMoveMembers | com/ohmyagent/internal/application/messaging/service.go:502-562 | Additions and removals move exactly the members they name, in exactly the room their check was for |
| Rooms.Service.CreateDirect | com/ohmyagent/internal/application/messaging/service.go:83-106 | Find, create, find again against the unique key, with a rival creating in between: the caller gets the one room of the pair, new only if there was none, and an error only if a statement failed |
| Rooms.Service.Dedupe | com/ohmyagent/internal/application/messaging/service.go:680-695 | Ids trimmed, blanks dropped, each kept where it first stands |
| Rooms.Service.FilterToMembers | com/ohmyagent/internal/application/messaging/service.go:325-340 | The ids that are members, in order, repeats included |
| Lists.DistinctKeepsOrder | com/ohmyagent/internal/application/messaging/service.go:680-695 | First occurrences are all different and stand in the order they first occurred |
| Messages.DeletedStaysDeleted | com/ohmyagent/internal/adapter/out/db/messaging_repository.go:341-360 | With every check and its write as separate steps, a deleted message stays deleted with empty content, or goes with its room, throughout a run if and only if no later deletion of it is stamped at or before the epoch |
| Messages.OnlyTheClockUndeletes | com/ohmyagent/internal/adapter/out/db/messaging_repository.go:341-360 | No step but such a deletion brings a deleted message back, an edit checked before the deletion included |
| Messages.DeletedForGood | com/ohmyagent/internal/adapter/out/db/messaging_repository.go:341-360 | With every deletion clock after the epoch a deleted message stays deleted in every run |
| Messages.DeletionNeedsTheClock | com/ohmyagent/internal/adapter/out/db/messaging_repository.go:352-360 | A deletion leaves the message deleted if and only if the time it is stamped with is after the epoch |
| Messages.WordsAreTheSenders | com/ohmyagent/internal/application/messaging/service.go:346-404 | In every run, whatever checks and writes overlap, a message's words are its sender's own, sent or edited by them while a member of its room, and only they or a moderator can have deleted it |
| Messages.SendWrites | com/ohmyagent/internal/application/messaging/service.go:123-147 | A send stores the checked text under its sender and touches no other message |
| Messages.EditWrites | com/ohmyagent/internal/adapter/out/db/messaging_repository.go:341-349 | An edit gives a message without deletion time its text and time, and touches nothing else |
| Messages.DeletionBlanks | com/ohmyagent/internal/adapter/out/db/messaging_repository.go:352-360 | A deletion blanks and stamps its message and touches nothing else |
| Messages.ReadAdvances | com/ohmyagent/internal/adapter/out/db/messaging_repository.go:201-209 | A read moves its member's position up to its time, never back, and touches no other row |
| Messages.MembershipMoves | com/ohmyagent/internal/adapter/out/db/messaging_repository.go:241-271 | A member who joins starts read up to then and keeps the row if in already; leaving takes exactly that row |
| Messages.RoomGoesWhole | com/ohmyagent/internal/adapter/out/db/messaging_repository.go:178-199 | A deleted room takes along all its messages and members and nothing else |
| Messages.Service.SendMessage | com/ohmyagent/internal/application/messaging/service.go:123-147 | Blank without attachment is invalid, a non-member is refused; otherwise the trimmed text is stored under the actor. The call is its check and its write in a row |
| Messages.Service.OwnMessage | com/ohmyagent/internal/application/messaging/service.go:387-404 | Passes exactly the sender of a message of that room who is a member, and names the first thing missing |
| Messages.Service.EditMessage | com/ohmyagent/internal/application/messaging/service.go:346-365 | Done exactly for the sender's own undeleted message and non-blank text, which it then holds with the time of the edit; everything else changes nothing. The call is its check and its write in a row |
| Messages.Service.DeleteMessage | com/ohmyagent/internal/application/messaging/service.go:368-384 | The sender's own message is blanked and stamped; one already deleted is left as it is without an error. The call is its check and its write in a row |
| Messages.Service.Moderate | com/ohmyagent/internal/application/messaging/service.go:293-310 | Any stored message by its id, in the same way |
| Messages.Service.MarkRead | com/ohmyagent/internal/application/messaging/service.go:411-424 | A member's position goes up to now and never back. The call is its check and its write in a row |
| Messages.ReadNeverMovesBack | com/ohmyagent/internal/adapter/out/db/messaging_repository.go:201-209 | In every run a member's read position never decreases while the same membership row lives |
| Messages.RunsKeepInv | com/ohmyagent/internal/application/messaging/service.go:292-310 | In every reachable state a deletion time goes with empty content and ids are never reused |
| TypingCache.ServedListsAreExact | com/ohmyagent/internal/application/messaging/service.go:586-596 | Every list ever served is the version of the room's members that was current at the step its fill read it; from the cache it is served at most 5 s after it was put; at most 4096 rooms are cached |
| TypingCache.ServedListsAreCurrent | com/ohmyagent/internal/application/messaging/service.go:586-596 | Against the step at which the call looked into the cache: after a miss the list is at least as recent, after a hit it is the then current one unless the entry was excused |
| TypingCache.StaleExactlyWithExcuse | com/ohmyagent/internal/application/messaging/service.go:586-596 | With no invalidation outstanding for the room, a cached list is of the current version if and only if its fill straddled no change and nothing since changed the room without invalidating here: its creation, its removal, another instance |
| TypingCache.StraddlingFillStaysStale | com/ohmyagent/internal/application/messaging/service.go:586-596 | A run, from a created room whose member adds another, that ends with every call finished and the old list cached |
| TypingCache.LoadAndDecideLookUp | com/ohmyagent/internal/application/messaging/typing_cache.go:53-65 | A call's two steps on the cache, run in a row, are one lookup: it serves what the cache has for the room by the clock, or misses |
| TypingCache.CreateIsNew | com/ohmyagent/internal/application/messaging/service.go:63-106 | A room is created with its members under an id not in use, and changes no other |
| TypingCache.RemovedRoomStaysCached | com/ohmyagent/internal/application/messaging/service.go:313-317 | Removing a room as administrator does not invalidate: its list stays cached, of an older version |
| TypingCache.LookupAfterStore | com/ohmyagent/internal/application/messaging/typing_cache.go:53-83 | A stored list is served up to and including its expiry and not after |
| TypingCache.StoreBounded | com/ohmyagent/internal/application/messaging/typing_cache.go:68-83 | The bound holds after a store, the new list is in, and every other line is as before or gone |
| TypingCache.MemberListCache.Get | com/ohmyagent/internal/application/messaging/typing_cache.go:53-65 | Serves the held slice of an entry that has not expired |
| TypingCache.MemberListCache.Put | com/ohmyagent/internal/application/messaging/typing_cache.go:68-83 | At the bound expired entries go first, then all; the list is copied, so the caller's slice never becomes the cache's |
| TypingCache.MemberListCache.PruneExpired | com/ohmyagent/internal/application/messaging/typing_cache.go:92-99 | Exactly the expired entries go |
| TypingCache.MemberListCache.Invalidate | com/ohmyagent/internal/application/messaging/typing_cache.go:85-89 | Exactly the room's entry goes |
| TypingCache.Recipients | com/ohmyagent/internal/application/messaging/service.go:437-462 | One pass finds whether the actor is a member and everybody else, in order |
| Providers.AtMostOneActive | com/ohmyagent/internal/application/llmprovider/usecase.go:83-184 | At most one provider is active in every interleaving in which no seeding straddles an activation |
| Providers.OneActiveThroughout | com/ohmyagent/cmd/api/main.go:387-418 | Over whole runs: at most one provider is active throughout if and only if no seeding save activates while something is active |
| Providers.OnlySeedingCanBreakIt | com/ohmyagent/cmd/api/main.go:387-418 | A step from one active provider keeps it so if and only if it is not a seeding save that activates while something is already active |
| Providers.TwoSeedingsTwoActive | com/ohmyagent/cmd/api/main.go:387-418 | Two instances seeding one empty database at once leave two active providers: the claim without the proviso is false |
| Providers.StaleOnlyAfterStraddle | com/ohmyagent/internal/application/llmprovider/usecase.go:227-238 | With no invalidation outstanding a cached provider is the one active row as stored, unless its fill straddled a write to a stored row |
| Providers.StaleExactlyFromTheSet | com/ohmyagent/internal/application/llmprovider/usecase.go:227-238 | With no invalidation outstanding a cached provider is an active row as stored if and only if what its fill had read was one when it was set; it is when no write to a stored row came between |
| Providers.FreshnessStays | com/ohmyagent/internal/application/llmprovider/usecase.go:129-184 | Whether a stored row is as read and active changes only by a write that goes on to invalidate |
| Providers.StraddlingFillGoesStale | com/ohmyagent/internal/application/llmprovider/usecase.go:227-238 | A run that ends with every call over and an inactive provider cached |
| Providers.RunsKeepCache | com/ohmyagent/internal/adapter/out/llm/cache.go:26-50 | In every interleaving, unless an invalidation is outstanding, a cached entry is fresh exactly if it was when set, and a fill that saw no write since holds an active row |
| Providers.ActivateMakesOne | com/ohmyagent/internal/adapter/out/db/llmprovider_repository.go:88-118 | The activation transaction leaves exactly the chosen row active, loses none and changes no name or setting |
| Providers.Service.Create | com/ohmyagent/internal/application/llmprovider/usecase.go:83-126 | Saves inactive, then activates if asked; the cache stays empty or the active row. The call is the run's save, activation and invalidation in a row |
| Providers.Service.UpdateConfig | com/ohmyagent/internal/application/llmprovider/usecase.go:129-157 | The model becomes the request's and the key too unless blank, when the stored one stays; name, active mark and every other row stay; unknown ids change nothing; the cache is emptied. The call is its steps of the run in a row |
| Providers.Service.Activate | com/ohmyagent/internal/application/llmprovider/usecase.go:160-171 | Exactly the chosen provider becomes active, or nothing changes. The call is its steps of the run in a row |
| Providers.Service.Delete | com/ohmyagent/internal/application/llmprovider/usecase.go:174-195 | Removes the row and empties the cache, or nothing changes. The call is its steps of the run in a row |
| Providers.Service.GetActive | com/ohmyagent/internal/application/llmprovider/usecase.go:227-238 | Cached or not, what is returned is the active row as stored. The call is its steps of the run in a row |
| Transcript.BuildChat | com/ohmyagent/internal/adapter/out/llm/openai_adapter.go:98-150 | One parameter per message, saying what the history means, but for assistant messages with empty text |
| Transcript.BuildResponses | com/ohmyagent/internal/adapter/out/llm/openai_responses.go:44-71 | The items say exactly what the history means |
| Transcript.BuildClaude | com/ohmyagent/internal/adapter/out/llm/claude_adapter.go:95-174 | One message per turn and per maximal run of tool results, system messages not ending a run, each rendering exactly its own turn or run on its own side; complete thinking first and before exactly its own calls; no message empty or ending in thinking; exactly one cache mark, on the very last block, unless there is nothing. When every call's arguments are non-blank and parse to themselves, the blocks say exactly what the history means |
| Transcript.BuildHistory | com/ohmyagent/internal/adapter/out/llm/claude_adapter.go:95-152 | The loop with its pending results, before the mark: the same message by message, nothing lost, merged or reordered |
| Transcript.AssistantBlocks | com/ohmyagent/internal/adapter/out/llm/claude_adapter.go:112-138 | Complete thinking first and unchanged, then the text if any, then one tool_use per call in order with its id, its name and as input the parsed arguments, or {} when they are blank or do not parse |
| Transcript.MarkHistoryCache | com/ohmyagent/internal/adapter/out/llm/claude_adapter.go:161-178 | Writes the mark through to the last block of the last message and nothing else |
| Transcript.MarkIsOne | com/ohmyagent/internal/adapter/out/llm/claude_adapter.go:161-178 | Marking an unmarked well-formed history gives exactly one mark, on the last block |
| Transcript.MarkKeepsWords | com/ohmyagent/internal/adapter/out/llm/claude_adapter.go:161-178 | Marking changes nothing that is said |
| Transcript.MarkKeepsThoughts | com/ohmyagent/internal/adapter/out/llm/claude_adapter.go:161-178 | Nor which turn carries which thinking |
| Transcript.MarkKeepsGroups | com/ohmyagent/internal/adapter/out/llm/claude_adapter.go:161-178 | Nor which message renders which turn or run |
| Transcript.LiftedSystemIsTheRest | com/ohmyagent/internal/adapter/out/llm/claude_adapter.go:76-91 | The lifted system texts are exactly the system events left out of the messages, in order |
| Transcript.BuildTools | com/ohmyagent/internal/adapter/out/llm/claude_adapter.go:217-234 | Every tool in order with name, schema and non-blank description, the last one alone marked |
| Transcript.BuildRequest | com/ohmyagent/internal/adapter/out/llm/claude_adapter.go:302-308 | Messages and system text together say the whole history, with one mark for the history and one for the prefix when there are such parts, so never more than two |
| Transcript.RenderAll | com/ohmyagent/internal/adapter/out/llm/claude_adapter.go:95-152 | For every history the three renderings have equal traces up to empty assistant texts, lifted system messages, thinking blocks and decoded call arguments; up to the first three alone when every call's arguments parse to themselves |
| Transcript.DecodeYields | com/ohmyagent/internal/adapter/out/llm/claude_adapter.go:199-208 | Arguments that are not all white space and parse go in as parsed; all others as {} |
| Transcript.PlainTarget | com/ohmyagent/internal/adapter/out/llm/claude_adapter.go:95-152 | Decoding changes nothing of a history whose call arguments parse to themselves |
| Transcript.JoinsEitherWay | com/ohmyagent/internal/adapter/out/llm/claude_adapter.go:76-91 | Joining the system texts from the front or from the back gives the same text |
| ToolCalls.Reassemble | com/ohmyagent/internal/adapter/out/llm/openai_adapter.go:185-206 | For any chunk stream: one call per index, indices strictly increasing, arguments the index's fragments joined in arrival order, id and name the last non-blank ones |
| ToolCalls.InterleavingDoesNotMatter | com/ohmyagent/internal/adapter/out/llm/openai_adapter.go:292-305 | Streams with the same fragments per index give the same calls however the indices interleave |
| ToolCalls.AdjacentSwap | com/ohmyagent/internal/adapter/out/llm/openai_adapter.go:292-305 | Two adjacent fragments of different calls may arrive in either order |
| ToolCalls.CollectResponses | com/ohmyagent/internal/adapter/out/llm/openai_responses.go:133-152 | For any event stream: one call per announced item, by output index |
| ToolCalls.Build | com/ohmyagent/internal/adapter/out/llm/openai_responses.go:175-189 | Each announcement starts an item afresh, its deltas extend it, deltas of unannounced items are ignored |
| ToolCalls.ResponsesAgree | com/ohmyagent/internal/adapter/out/llm/openai_responses.go:133-189 | With distinct items and output indices the Responses stream gives the calls that the corresponding Chat Completions stream gives |
| ToolCalls.BuilderIsWhole | com/ohmyagent/internal/adapter/out/llm/openai_responses.go:175-189 | Each builder is what the corresponding fragments make of its index |
| ToolCalls.ReannouncingForgets | com/ohmyagent/internal/adapter/out/llm/openai_responses.go:175-189 | Announcing an item twice loses the arguments collected before |
| ToolCalls.SortedIsUnique | com/ohmyagent/internal/adapter/out/llm/openai_adapter.go:195-206 | With different keys there is only one sorted order, so map order cannot show |
| Decompressor.DeliversAPrefix | com/ohmyagent/internal/adapter/in/http/compression.go:77-102 | For any buffer sizes and any inner behaviour the delivered bytes are a prefix of the stream, at most limit of them, and nothing is withheld up to the limit |
| Decompressor.EndMeansAll | com/ohmyagent/internal/adapter/in/http/compression.go:77-102 | A reported end means that the whole stream was delivered and fits the limit; a longer stream never looks complete |
| Decompressor.FittingStreamIsNotCut | com/ohmyagent/internal/adapter/in/http/compression.go:77-102 | Up to and including limit bytes every byte is passed on and every report is the inner reader's own |
| Decompressor.TooLargeStays | com/ohmyagent/internal/adapter/in/http/compression.go:78-82 | Once past the limit every later call answers too large with no bytes |
| Decompressor.Room | com/ohmyagent/internal/adapter/in/http/compression.go:83-87 | The inner reader is never given an empty slice for a non-empty buffer and can pass the limit by one byte at most |
| Decompressor.LimitedDecompressor.Read | com/ohmyagent/internal/adapter/in/http/compression.go:77-102 | Buffer, count, error and counter after one call, in place, are those of the step the lemmas are about |
| BlobReader.Reader.Read | com/ohmyagent/internal/adapter/out/db/chat_attachment_store.go:97-128 | The bytes returned so far are always a prefix of the first min(size, length) bytes, all of them exactly when the end is reported, and each read into a non-empty buffer lowers a measure that is never negative |
| BlobReader.Reader.Fetch | com/ohmyagent/internal/adapter/out/db/chat_attachment_store.go:98-124 | One query at the next offset, with no gap or overlap, for exactly 1 MiB unless less remains; end, missing row and failure change nothing |
| BlobReader.Reader.Serve | com/ohmyagent/internal/adapter/out/db/chat_attachment_store.go:125-127 | Copies what fits of the buffered chunk into the caller's buffer, never beyond |
| BlobReader.Store.Upload | com/ohmyagent/internal/application/messaging/service.go:220-247 | Empty and over 10 MiB are refused without a row; otherwise the row records the true length |
| BlobReader.Store.Download | com/ohmyagent/internal/adapter/out/db/chat_attachment_store.go:57-81 | An id without a row is not found; otherwise for any buffer sizes the bytes are a prefix of the visible blob, all of it at the end, which comes after finitely many non-empty buffers |
| BlobReader.Store.RoundTrip | com/ohmyagent/internal/application/messaging/service.go:220-252 | Upload followed by download is the identity, whatever the buffer sizes |
| Registry.DiscoverIsExact | com/ohmyagent/internal/application/agentregistry/usecase.go:132-155 | Discovery equals the plain filter, same agents in the same order, on every table exactly when capability and tag are each skipped by the prefilter or written unescaped by the JSON encoder (or no heartbeat could pass the status filter) |
| Registry.ExactWhenSearchable | com/ohmyagent/internal/adapter/out/db/agentregistry_repository.go:124-159 | For such filters the prefilter loses no agent |
| Registry.MissedWhenNotSearchable | com/ohmyagent/internal/adapter/out/db/agentregistry_repository.go:153-159 | For any other filter, under any id and owner it admits, an agent that matches it and that discovery misses; one that registration stores whenever the filter's values are |
| Registry.ExactOnRegistered | com/ohmyagent/internal/domain/agentregistry/model.go:107-180 | The same equivalence with the tables restricted to agents that registration stores |
| Registry.AmpersandIsMissed | com/ohmyagent/internal/adapter/out/db/agentregistry_repository.go:153-159 | A registered agent with the capability R&D is selected by the plain filter for R&D and not discovered |
| Registry.PatternFinds | com/ohmyagent/internal/adapter/out/db/agentregistry_repository.go:153-172 | The LIKE pattern of an unescaped value finds every JSON list that holds the value |
| Registry.PatternMisses | com/ohmyagent/internal/adapter/out/db/agentregistry_repository.go:153-172 | The pattern of a value with an escaped character misses even the list of that value alone |
| Registry.LikeFinds | com/ohmyagent/internal/adapter/out/db/agentregistry_repository.go:153-159 | A percent pattern matches every text that contains its core |
| Registry.DefaultAttainable | com/ohmyagent/internal/domain/agentregistry/model.go:47-60 | With the default status filter some heartbeat passes exactly when the lease time is positive |
| Registry.List | com/ohmyagent/internal/adapter/out/db/agentregistry_repository.go:124-150 | The rows that pass the where clause, in table order |
| Registry.Compact | com/ohmyagent/internal/application/agentregistry/usecase.go:141-154 | Overwriting the array it reads, the loop leaves at the front exactly the wanted rows in order with their status |
| Registry.CheckMatch | com/ohmyagent/internal/domain/agentregistry/model.go:218-263 | True exactly for agents that meet every given owner, exclusion, capability, tag and query condition |
| Registry.CheckQuery | com/ohmyagent/internal/domain/agentregistry/model.go:238-254 | True exactly when name, model, a capability or a tag contains the query, case aside |
| Registry.Discover | com/ohmyagent/internal/application/agentregistry/usecase.go:132-164 | Bad statuses and failed listings are reported. Every returned row says its liveness at now; for every searchable filter the answer is the plain filter's, so a matching agent is returned as online exactly when last heard within the lease and online agents are asked for, and so for stale and offline |
| Registry.SelectedInOrder | com/ohmyagent/internal/application/agentregistry/usecase.go:141-154 | The plain filter row by row: kept are exactly the matching rows whose liveness is asked for, in table order |
| Registry.SelectedByLiveness | com/ohmyagent/internal/application/agentregistry/usecase.go:141-154 | Every row returned says its liveness, and a matching row is returned under it exactly if the filter asks for it: online within the lease, stale from one lease to three, offline else or without heartbeat |
| Registry.StatusIsLiveness | com/ohmyagent/internal/domain/agentregistry/model.go:47-60 | Online exactly when last heard less than a lease ago, stale exactly from one lease to less than three; the empty filter asks for both |
| Registry.LikeIsContains | com/ohmyagent/internal/adapter/out/db/agentregistry_repository.go:153-159 | A percent pattern without wildcards in its core matches exactly the texts that hold the core somewhere, the case of letters aside |
| Registry.GuardedValues | com/ohmyagent/internal/adapter/out/db/agentregistry_repository.go:153-159 | The guard skips exactly blank values and those with a wildcard, a quote or a backslash |
| Registry.EncodedListReadsBack | com/ohmyagent/internal/adapter/out/db/agentregistry_repository.go:162-172 | The stored text of every list of strings reads back as that list under the escapes of section 7 of RFC 8259 |
| Registry.EncodedIsSafe | com/ohmyagent/internal/adapter/out/db/agentregistry_repository.go:162-172 | It holds no raw control character, <, >, & or line separator |
| Registry.EscapesOnly | com/ohmyagent/internal/adapter/out/db/agentregistry_repository.go:162-172 | Every other character but quote and backslash is written raw, and no other is |
| Registry.EscapesAsGo | com/ohmyagent/internal/adapter/out/db/agentregistry_repository.go:162-172 | The escapes of quote, backslash, the HTML characters, tab, line feed, carriage return, NUL and U+2028 as Go writes them |
| Registry.Register | com/ohmyagent/internal/domain/agentregistry/model.go:107-180 | Registration stores exactly what Registered describes: trimmed name and model, tags trimmed, without blanks, overlong ones and repeats; refused exactly without owner or name, over the length limits or over 32 tags; and an agent so described comes back unchanged |
| Registry.NormalizeTags | com/ohmyagent/internal/domain/agentregistry/model.go:161-180 | The tags that TagMembers describes, first occurrences in order |
| Registry.TagMembers | com/ohmyagent/internal/domain/agentregistry/model.go:161-180 | A tag is kept if and only if it is a given one trimmed, not blank and at most 128 long |
| Sessions.CapHolds | com/ohmyagent/internal/application/project/service.go:74-131 | With at most n pushes in flight, and deletions and failures anywhere, an owner's conversations never exceed cap - 1 + n |
| Sessions.CapFromRest | com/ohmyagent/internal/application/project/service.go:74-131 | Starting at or below the cap with nothing in flight: never above cap - 1 + n, so never above the cap with one caller |
| Sessions.StepKeepsBound | com/ohmyagent/internal/application/project/service.go:93-105 | Only a passed check claims a new conversation |
| Sessions.TwoPushesPassTheCap | com/ohmyagent/internal/application/project/service.go:93-105 | The bound is reached: cap 1 and two pushes at once leave two conversations |
| Sessions.BoundIsReached | com/ohmyagent/internal/application/project/service.go:93-105 | For every cap and every n: from any table in which the owner is one below the cap, n pushes at once can leave cap - 1 + n conversations |
| Sessions.CapIsSafeForOneOnly | com/ohmyagent/internal/application/project/service.go:93-105 | An owner one below the cap stays within it in every run of n callers if and only if n is at most 1 |
| Sessions.IdsStayApart | com/ohmyagent/internal/adapter/out/db/conversation_repository.go:26-41 | In every interleaving no two conversations, stored or in flight, share an id |
| Sessions.KeysApart | com/ohmyagent/internal/application/project/service.go:139-145 | Conversations with different ids never share a body key |
| Sessions.SaveKeepsBodies | com/ohmyagent/internal/application/project/service.go:123-130 | Saving a body leaves every other conversation's body as it was |
| Sessions.UpsertKeepsBodies | com/ohmyagent/internal/adapter/out/db/conversation_repository.go:26-41 | After the upsert every row's key, moved or not, holds that conversation's last body |
| Sessions.Service.UpsertConversation | com/ohmyagent/internal/application/project/service.go:74-131 | One push at a time: an existing client id is never refused for the cap, a new one exactly at the cap; the body under the returned row is the one pushed. Field by field: an existing row keeps id and creation time and takes project, title, messages and time of update from the push; a new one takes the drawn id and the push's creation time or now. A failure before the upsert leaves the rows, a failed reload reports an error with the row written |
| Sessions.RowKeepsIdAndBirth | com/ohmyagent/internal/adapter/out/db/conversation_repository.go:26-41 | In every run, as long as a conversation's row lives its id and creation time never change |
| Sessions.StepKeepsRow | com/ohmyagent/internal/adapter/out/db/conversation_repository.go:26-41 | Only an upsert of the conversation changes its row, and then all of it but id and creation time |
| Sessions.ReloadCarriesRow | com/ohmyagent/internal/adapter/out/db/conversation_repository.go:36-41 | What a push returns after its reload has the row's id and creation time |
| Sessions.ContentKeyReads | com/ohmyagent/internal/application/project/service.go:139-145 | The body's key is owner, project or _unfiled, and id with .json.gz |
| Sessions.Service.DeleteConversation | com/ohmyagent/internal/adapter/out/db/conversation_repository.go:76-82 | Removes exactly the owner's row with that id, or reports that there is none |
| Sessions.RacingPushesLoseABody | com/ohmyagent/internal/application/project/service.go:88-131 | Two first pushes of one conversation at once both return the same row, and its body is not the later push's |
| Sessions.OverlappingPushesMixARow | com/ohmyagent/internal/application/project/service.go:88-131 | Whatever row is stored, two later pushes at once can leave it with the second's title and the first's body |
| Sessions.AlonePushKeepsItsBody | com/ohmyagent/internal/application/project/service.go:74-131 | In every interleaving a push that overlaps no other push of its conversation has its body under the row right after its upsert and under the row its reload returns, whatever other conversations, deletions and failures do |
| Sessions.OnlyAnotherPushTakesTheBody | com/ohmyagent/internal/application/project/service.go:123-131 | A saved body waiting for its upsert is lost from its key exactly when another push of the conversation saves a different body under the same id and project |
| Sessions.UpsertShowsTheBody | com/ohmyagent/internal/adapter/out/db/conversation_repository.go:26-41 | At the upsert the row's key is the one the body was saved under exactly when the row is new or has the push's id |
| Sessions.UpsertKeepsKey | com/ohmyagent/internal/adapter/out/db/conversation_repository.go:26-41 | The same for any row and push: equal keys if and only if no other id is kept |
| Sessions.OtherBodiesStay | com/ohmyagent/internal/application/project/service.go:123-131 | No step of a run changes another conversation's row or the body under it |
| Sessions.Service.Admit | com/ohmyagent/internal/application/project/service.go:88-105 | An existing conversation is admitted under its own id, a new one under the new id exactly below the cap |
| Sessions.Service.Write | com/ohmyagent/internal/application/project/service.go:123-130 | Body first, then row: a failed save or upsert leaves the rows, a success leaves the body under the row |
| ToolPolicy.MergeIsConjunction | com/ohmyagent/internal/domain/toolpolicy/model.go:169-186 | A tool passes the merge exactly when it passes the global and the member policy, for all tools, if and only if the two allow lists do not clash (both non-empty and disjoint) |
| ToolPolicy.ClashOpensUp | com/ohmyagent/internal/domain/toolpolicy/model.go:169-186 | Two disjoint allow lists, and a tool that neither allows passing their merge |
| ToolPolicy.MergeOfOneTool | com/ohmyagent/internal/domain/toolpolicy/model.go:169-186 | And when they clash no tool passes both, yet the merge passes every tool that neither denies |
| ToolPolicy.UnionStrings | com/ohmyagent/internal/domain/toolpolicy/model.go:219-239 | First occurrences of the first list then the second; with one list empty the other is copied with its repeats |
| ToolPolicy.UnionDropsRepeats | com/ohmyagent/internal/domain/toolpolicy/model.go:219-239 | The union has no repeats if and only if both lists have entries or the two together had none |
| ToolPolicy.UnionKeepsRepeats | com/ohmyagent/internal/domain/toolpolicy/model.go:219-239 | A cleaned list with a repeated entry whose union with the empty list still repeats it |
| ToolPolicy.IntersectStrings | com/ohmyagent/internal/domain/toolpolicy/model.go:241-263 | Entries of both lists, once each, in the order of the first |
| ToolPolicy.ResolveEffective | com/ohmyagent/internal/domain/toolpolicy/model.go:169-186 | The merge that MergeIsConjunction is about |
| ToolPolicy.Authorize | com/ohmyagent/internal/domain/toolpolicy/model.go:202-217 | Granted exactly for tools that pass, blocked exactly for denied ones, even if also allowed |
| ToolPolicy.CleanList | com/ohmyagent/internal/domain/toolpolicy/model.go:112-124 | Trimmed entries without blanks, order and repeats kept |
| ToolPolicy.NormalizingIsStable | com/ohmyagent/internal/domain/toolpolicy/model.go:54-92 | Normalising before the save and again after the load changes nothing more |
| ToolPolicy.SnapshotServesRows | com/ohmyagent/internal/application/toolpolicy/manager.go:50-61 | Leaving empty overrides out of the snapshot changes nobody's policy |
| ToolPolicy.ModeReads | com/ohmyagent/internal/domain/toolpolicy/model.go:85-91 | The mode is realtime exactly if that word is all that is given between white space, and cached in every other case |
| ToolPolicy.DefaultIsCached | com/ohmyagent/internal/application/toolpolicy/manager.go:39-61 | With nothing stored the mode is cached and no tool is restricted |
| ToolPolicy.Manager.Reload | com/ohmyagent/internal/application/toolpolicy/manager.go:39-61 | After both reads succeed every member is served the merge of the stored rows; a failed second read leaves the old overrides beside the new global policy |
| ToolPolicy.Manager.UpdateSettings | com/ohmyagent/internal/application/toolpolicy/manager.go:91-104 | A successful update makes every member's policy the merge of the stored rows, whatever the snapshot was; a failed save changes nothing |
| ToolPolicy.Manager.UpdateMemberPolicy | com/ohmyagent/internal/application/toolpolicy/manager.go:117-135 | The same for an override; one that is empty after cleaning removes the row, and no other member's policy changes |
| PolicySnapshot.StaleOnlyAfterStraddle | com/ohmyagent/internal/application/toolpolicy/manager.go:39-61 | With no update under way and neither pointer missed, every member is served the merge of the stored rows unless the read behind a stored pointer straddled a write |
| PolicySnapshot.FreshExactlyFromTheStores | com/ohmyagent/internal/application/toolpolicy/manager.go:39-61 | In every interleaving of updates, failed reloads and other instances' writes: with no update under way and neither pointer missed since its store, each pointer is what the tables hold if and only if it was when it was stored; it was when no write came between its read and its store |
| PolicySnapshot.ReloadRepairs | com/ohmyagent/internal/application/toolpolicy/manager.go:39-61 | A complete reload with no write in between repairs both pointers, whatever failed before |
| PolicySnapshot.SettingsUpdateServes | com/ohmyagent/internal/application/toolpolicy/manager.go:91-104 | An update of the settings that runs alone puts them, normalised, into the table and into force beside the stored overrides |
| PolicySnapshot.MemberUpdateServes | com/ohmyagent/internal/application/toolpolicy/manager.go:117-135 | So does an update of one override; one without entries takes the row away |
| PolicySnapshot.FailedReloadServesOld | com/ohmyagent/internal/application/toolpolicy/manager.go:39-61 | A first read that fails leaves the whole old snapshot in force beside the new row, a second one the old overrides beside the new settings |
| PolicySnapshot.OlderReloadStoresLast | com/ohmyagent/internal/application/toolpolicy/manager.go:39-61 | A run of two updates that ends with both finished and the overwritten settings in force |
| PolicySnapshot.RunsKeepSnapshot | com/ohmyagent/internal/application/toolpolicy/manager.go:39-61 | In every run, unless a store is on its way or was missed, each pointer is fresh exactly if it was when stored, and a read that saw every write holds what is stored |
| Lists.CleanedIsStable | com/ohmyagent/internal/domain/toolpolicy/model.go:112-124 | Cleaning a cleaned list changes nothing and every entry is trimmed and not blank |
| Lists.CleanedInOrder | com/ohmyagent/internal/domain/toolpolicy/model.go:112-124 | Cleaning keeps exactly the entries that are not blank, trimmed, each where it stood |
| Text.TrimSpaceTakesEnds | com/ohmyagent/internal/domain/toolpolicy/model.go:112-124 | What trimming takes off both ends is white space |
| Text.TrimSpaceFindsCore | com/ohmyagent/internal/domain/toolpolicy/model.go:112-124 | White space around a core that neither starts nor ends with any is exactly what is taken off |
| Text.SpacesAreListed | com/ohmyagent/internal/domain/toolpolicy/model.go:112-124 | White space is the 25 code points of Unicode's White_Space property |
| Text.StrLeIsLexicographic | com/ohmyagent/internal/domain/messaging/model.go:119-124 | The order of ids is decided by the first character in which they differ, or by length if one is a prefix |

## Left out

- Providers.AtMostOneActive: needs that no seeding straddles an activation, because without it the claim is false; the exact condition is `Providers.OneActiveThroughout`
- Providers.StaleOnlyAfterStraddle: is about one process; a write by another instance never invalidates this instance's cache
- Rooms.CallersAgree: needs that no room of the pair is deleted, because a caller may otherwise be left with a room that is gone
- ToolCalls.ResponsesAgree: needs items and output indices announced once each, which the API promises and `ToolCalls.ReannouncingForgets` shows to be needed
- TypingCache.StaleExactlyWithExcuse: a version that came by another instance's change counts as silent, because no invalidation of it reaches this cache; the list is then bounded by its 5 s only, as `TypingCache.ServedListsAreExact` says
- HTTP, SSE and WebSocket plumbing, admin pages, routing, configuration, roles and audit records: input and output
- SQL text, drivers and MySQL collations: each statement is its effect on a map; LIKE folds ASCII case as SQLite does
- Vendor SDKs, Redis, S3, files, encryption: opaque; gzip is an injective wrapping or a given byte stream
- A stored row is its decoded lists; that their text reads back is `Registry.EncodedListReadsBack`, for Go's own output rather than any JSON
- Machine widths: counters, sizes and times are unbounded integers; length limits of agents count characters, not bytes
- Lower-casing in the query filter is an arbitrary function, and filters reach Discover already normalised
- `sort.Slice` is an insertion sort; nothing depends on the order it leaves equal keys in
- Writer preference of the reader-writer lock: the model allows more interleavings than the lock does
- The ordering of two active rows in the active-provider query: the model may return either
- Setting limits and default limits, quota status percentages and snapshots: they only store or display
- Blocked command and path patterns, other normalised settings, file names and content types: single-branch facts
- Who receives a presence announcement: only the announcements themselves are modelled
- Owner checks of projects before a push, and the removal of a project's conversations with it: a delete per row
- The default-limit cache may serve an old default for 30 s after another instance changes it: `Quota.Service.DefaultLimits` says exactly what is seen
- Upserting the registered agent, its address and version, heartbeats, sweeping and the admin listing; the async recorder, client versions, transcript and session managers: the same patterns again
