# ISEN Smart Companion: history deletes and event reminders

A Dafny model of the two pieces of logic inside the companion app's screens.

- **Conversation history** (`history.dfy`, module `History`). The persisted chat-message table and the history screen's local copy of it. Three handlers touch them:
  - the load effect copies the table into the list;
  - "delete one turn" deletes the clicked message and a *pair* chosen by position in the displayed list, then removes the clicked message from the list;
  - "delete all" clears both.
- **Event reminder switch** (`event_detail.dfy`, module `EventDetail`). The event detail screen's switch:
  - it stores a per-event boolean in the `user_prefs` preference map;
  - when it is turned on, it registers a one-shot alarm. The alarm's request code is the event id's `String.hashCode`, its payload is the event title under `event_title`, and its trigger time is the clock since boot plus 10 000 ms, registered as an RTC (wall-clock) alarm.

Each handler is written twice:
- as a function from one state value to the next (`AfterLoad`, `AfterDeleteTurn`, `AfterDeleteAll`, `Toggle`);
- as a method of a class holding the mutable state (`HistoryScreen` over a `MessageDao`; `EventDetailScreen` over `Preferences` and an `AlarmService`).

Each method's postcondition is that it ends in the state the function gives. The lemmas state the handlers' properties over those functions.

Behaviour the model makes explicit:
- The pair of a deleted message leaves the table but stays on screen (`DeleteTurnDiverges`).
- A storage fault in either delete leaves the screen untouched. A fault in the pair's delete still leaves the table without the clicked message (`DeleteTurnFault`).
- The pair is chosen by position alone. With two user messages in a row, deleting the first removes both from the table; the second stays on screen (`PairIgnoresAuthor`).
- Turning the switch off does not cancel a pending reminder (`DisableKeepsPendingAlarm`).
- Distinct event ids can share an alarm slot. `"Aa"` and `"BB"` both hash to 2112 (`DistinctIdsCollide`, `CollidingEventsShareSlot`).
- The trigger time comes from the clock since boot but is read against the wall clock. On any device whose wall clock is more than ten seconds past its boot-relative clock, the reminder is due as soon as it is registered (`ReminderDueAtOnce`).

Two consequences of the delete handler's step order:
- A fault in either delete leaves the list as it was, because the reassignment at `HistoryScreen.kt:135` runs only after both deletes return (`DeleteTurnFault`).
- Deleting a user message and its answer empties the table; the answer stays on screen (`DeleteQuestionAndAnswer`).

Assumptions about files that are not part of this model:
- `MessageDao` and `Message` are not part of this model. The table's delete is modelled as Room's `@Delete`, which removes the rows whose primary key `id` equals the argument's. `Message` is taken to be a data class, so the list's `filterNot { it == message }` compares whole values.
- `Event` is likewise not part of this model. Its fields are taken from its uses in `EventDetailActivity.kt`.

## Model

| member | source | states |
|---|---|---|
| `History.PairOf` | app/src/main/java/fr/isen/fidae/isensmartcompanion/screens/HistoryScreen.kt:129 | For a user message at index i the pair exists iff i+1 is in the list and is the entry at i+1; otherwise it exists iff i-1 is in the list and is the entry at i-1 |
| `History.Filter` | app/src/main/java/fr/isen/fidae/isensmartcompanion/screens/HistoryScreen.kt:135 | The filtered list holds every copy of each input element that passes the test and nothing else (equal multiplicities), and is no longer than the input |
| `History.FilterKeepsOrder` | app/src/main/java/fr/isen/fidae/isensmartcompanion/screens/HistoryScreen.kt:135 | Filtering only drops elements: the result is a subsequence of the input, in order |
| `History.GetOrNull` | app/src/main/java/fr/isen/fidae/isensmartcompanion/screens/HistoryScreen.kt:129 | Definition of Kotlin's `getOrNull` (the element at an index, none out of bounds); its consequences for pair selection are stated by `PairOf` |
| `History.WithoutRow` | app/src/main/java/fr/isen/fidae/isensmartcompanion/screens/HistoryScreen.kt:130-132 | Definition of the table after a delete by primary key; `DeleteTurnStore` and `DeleteTurnFault` state which rows remain |
| `History.FilterNot` | app/src/main/java/fr/isen/fidae/isensmartcompanion/screens/HistoryScreen.kt:135 | Definition of `filterNot { it == message }`; `DeleteTurnLocal` states which entries remain, with their multiplicities and order |
| `History.AfterLoad` | app/src/main/java/fr/isen/fidae/isensmartcompanion/screens/HistoryScreen.kt:41-48 | Definition of the load effect's next state; `LoadShowsStore` states its properties and `HistoryScreen.LoadMessages` is proved to reach it |
| `History.AfterDeleteTurn` | app/src/main/java/fr/isen/fidae/isensmartcompanion/screens/HistoryScreen.kt:125-139 | Definition of the delete-turn handler's next state for each fault position; `DeleteTurnStore`, `DeleteTurnLocal`, `DeleteTurnDiverges`, `DeleteTurnFault`, `DeleteTurnAtBoundary` state its properties |
| `History.AfterDeleteAll` | app/src/main/java/fr/isen/fidae/isensmartcompanion/screens/HistoryScreen.kt:157-161 | Definition of the delete-all handler's next state; `DeleteAllClears` states that both parts are empty |
| `History.LoadShowsStore` | app/src/main/java/fr/isen/fidae/isensmartcompanion/screens/HistoryScreen.kt:38-48 | A fresh screen shows exactly the whole table after a successful load and stays empty after a failed one; the table is untouched |
| `History.DeleteTurnStore` | app/src/main/java/fr/isen/fidae/isensmartcompanion/screens/HistoryScreen.kt:129-133 | After a successful delete-turn a row remains iff it was stored and shares its key with neither the clicked message nor its pair, and every remaining row keeps its multiplicity and its original order |
| `History.DeleteTurnLocal` | app/src/main/java/fr/isen/fidae/isensmartcompanion/screens/HistoryScreen.kt:135 | After a successful delete-turn the local list holds exactly the old entries that differ from the clicked message, each with all its copies, in their original order; the pair is not removed |
| `History.DeleteTurnDiverges` | app/src/main/java/fr/isen/fidae/isensmartcompanion/screens/HistoryScreen.kt:129-135 | When a pair distinct from the clicked message exists, after a successful delete-turn the pair is still displayed, no stored row has its key, and list and table differ |
| `History.DeleteTurnFault` | app/src/main/java/fr/isen/fidae/isensmartcompanion/screens/HistoryScreen.kt:127-138 | A fault in either delete leaves the local list unchanged; a fault in the first delete leaves the table unchanged; a fault in the pair's delete leaves the table without exactly the clicked message's rows while the screen still shows it |
| `History.DeleteTurnAtBoundary` | app/src/main/java/fr/isen/fidae/isensmartcompanion/screens/HistoryScreen.kt:129-133 | A user message at the end of the list, or an assistant message at its start, has no pair, and only the clicked message's rows leave the table |
| `History.PairIgnoresAuthor` | app/src/main/java/fr/isen/fidae/isensmartcompanion/screens/HistoryScreen.kt:129 | With two consecutive user messages, deleting the first takes the second as its pair and empties the table, leaving the second on screen |
| `History.DeleteQuestionAndAnswer` | app/src/main/java/fr/isen/fidae/isensmartcompanion/screens/HistoryScreen.kt:125-139 | Table and list [question, answer]; deleting the question empties the table while the list still shows the answer |
| `History.DeleteAllClears` | app/src/main/java/fr/isen/fidae/isensmartcompanion/screens/HistoryScreen.kt:157-161 | Delete-all leaves both the table and the local list empty, whatever they held |
| `History.MessageDao.GetAll` | app/src/main/java/fr/isen/fidae/isensmartcompanion/screens/HistoryScreen.kt:44 | Reading the table fails exactly when a storage fault occurs, and otherwise returns every stored row |
| `History.MessageDao.Delete` | app/src/main/java/fr/isen/fidae/isensmartcompanion/screens/HistoryScreen.kt:130-132 | A delete succeeds exactly when no fault occurs; it then removes the rows with the argument's key, otherwise the table is unchanged |
| `History.MessageDao.DeleteAll` | app/src/main/java/fr/isen/fidae/isensmartcompanion/screens/HistoryScreen.kt:159 | The table is empty afterwards |
| `History.HistoryScreen.constructor` | app/src/main/java/fr/isen/fidae/isensmartcompanion/screens/HistoryScreen.kt:37-38 | The screen starts with an empty local list over the given table |
| `History.HistoryScreen.LoadMessages` | app/src/main/java/fr/isen/fidae/isensmartcompanion/screens/HistoryScreen.kt:41-48 | The load effect ends in the state `AfterLoad` gives: list equal to the table, or unchanged on a fault |
| `History.HistoryScreen.OnDeleteClick` | app/src/main/java/fr/isen/fidae/isensmartcompanion/screens/HistoryScreen.kt:125-139 | The per-row delete handler, step by step, ends in the state `AfterDeleteTurn` gives for each fault position |
| `History.HistoryScreen.OnDeleteAllClick` | app/src/main/java/fr/isen/fidae/isensmartcompanion/screens/HistoryScreen.kt:157-161 | The delete-all handler ends in the state `AfterDeleteAll` gives: table and list empty |
| `EventDetail.Utf16` | app/src/main/java/fr/isen/fidae/isensmartcompanion/EventDetailActivity.kt:132 | A string's UTF-16 encoding has at least one and at most two code units per character of the string in total, each below 0x10000 (which units each character yields is stated by `CodeUnits`) |
| `EventDetail.CodeUnits` | app/src/main/java/fr/isen/fidae/isensmartcompanion/EventDetailActivity.kt:132 | A character below 0x10000 is the single unit equal to its code point; any other is two units, a high surrogate (0xD800-0xDBFF) then a low surrogate (0xDC00-0xDFFF) |
| `EventDetail.Utf16RoundTrip` | app/src/main/java/fr/isen/fidae/isensmartcompanion/EventDetailActivity.kt:132 | Decoding a string's UTF-16 units gives back exactly its code points, so the encoding hashed is lossless |
| `EventDetail.HashLoop` | app/src/main/java/fr/isen/fidae/isensmartcompanion/EventDetailActivity.kt:132 | Definition of the hash loop `h = 31*h + unit`; `HashLoopIsPolynomial` relates it to the closed form and `HashCode` wraps it to 32 bits |
| `EventDetail.IsDue` | app/src/main/java/fr/isen/fidae/isensmartcompanion/EventDetailActivity.kt:140 | Definition of when an alarm comes due for its clock base (RTC against the wall clock, elapsed-realtime against the clock since boot); used by `ReminderDueAtOnce` |
| `EventDetail.RequestCode` | app/src/main/java/fr/isen/fidae/isensmartcompanion/EventDetailActivity.kt:132 | Definition of the request code as the id's hash; `DistinctIdsCollide` and `CollidingEventsShareSlot` state what follows |
| `EventDetail.Reminder` | app/src/main/java/fr/isen/fidae/isensmartcompanion/EventDetailActivity.kt:125-140 | Definition of the registered alarm (RTC base, time, payload); `ReminderContents` and `ReminderDueAtOnce` state its properties |
| `EventDetail.Schedule` | app/src/main/java/fr/isen/fidae/isensmartcompanion/EventDetailActivity.kt:125-140 | Definition of the alarm table after scheduling; `ScheduleAddsAtMostOne`, `CollidingEventsShareSlot` state its properties and `ScheduleNotification` is proved to reach it |
| `EventDetail.InitialNotified` | app/src/main/java/fr/isen/fidae/isensmartcompanion/EventDetailActivity.kt:46 | Definition of the opening switch state; `OpensWithStoredFlag` states its value |
| `EventDetail.Toggle` | app/src/main/java/fr/isen/fidae/isensmartcompanion/EventDetailActivity.kt:103-110 | Definition of the switch handler's next state; `ToggleWritesOneFlag`, `ToggleSchedulesOnlyWhenOn`, `DisableKeepsPendingAlarm`, `RescheduleReplacesAlarm` state its properties |

| `EventDetail.HashCode` | app/src/main/java/fr/isen/fidae/isensmartcompanion/EventDetailActivity.kt:132 | `String.hashCode` is a 32-bit signed value congruent modulo 2^32 to the polynomial sum of the code units in powers of 31 |
| `EventDetail.HashLoopIsPolynomial` | app/src/main/java/fr/isen/fidae/isensmartcompanion/EventDetailActivity.kt:132 | The hash loop `h = 31*h + unit` computes the closed-form polynomial u[0]*31^(n-1) + ... + u[n-1] |
| `EventDetail.DistinctIdsCollide` | app/src/main/java/fr/isen/fidae/isensmartcompanion/EventDetailActivity.kt:132 | The distinct ids "Aa" and "BB" have the same hash, 2112, and so the same request code |
| `EventDetail.GetBoolean` | app/src/main/java/fr/isen/fidae/isensmartcompanion/EventDetailActivity.kt:46 | Reading a flag gives the stored value for a written key and the caller's default for any other |
| `EventDetail.OpensWithStoredFlag` | app/src/main/java/fr/isen/fidae/isensmartcompanion/EventDetailActivity.kt:46 | The switch opens showing the flag stored for the event's id, or off when none is stored |
| `EventDetail.ToggleWritesOneFlag` | app/src/main/java/fr/isen/fidae/isensmartcompanion/EventDetailActivity.kt:104-105 | After switching to b the display shows b and the event's stored flag is b; the only key added is the event id and every other stored flag is unchanged |
| `EventDetail.ToggleSchedulesOnlyWhenOn` | app/src/main/java/fr/isen/fidae/isensmartcompanion/EventDetailActivity.kt:107-109 | Switching on puts the event's reminder in the slot of its request code, adds no other slot and changes no other slot; switching off leaves the alarm table exactly as it was |
| `EventDetail.DisableKeepsPendingAlarm` | app/src/main/java/fr/isen/fidae/isensmartcompanion/EventDetailActivity.kt:103-110 | Switching on then off leaves the stored flag off while the reminder registered when switching on is still pending |
| `EventDetail.ScheduleAddsAtMostOne` | app/src/main/java/fr/isen/fidae/isensmartcompanion/EventDetailActivity.kt:130-140 | Scheduling grows the alarm table by one entry when the request code's slot is free and by none when it is taken |
| `EventDetail.RescheduleReplacesAlarm` | app/src/main/java/fr/isen/fidae/isensmartcompanion/EventDetailActivity.kt:130-140 | Switching on twice leaves as many alarms as switching on once, and the event's alarm carries the later trigger time |
| `EventDetail.CollidingEventsShareSlot` | app/src/main/java/fr/isen/fidae/isensmartcompanion/EventDetailActivity.kt:130-140 | Two events with equal hashes share one slot: scheduling the second adds no slot and replaces the first's title with its own |
| `EventDetail.ReminderContents` | app/src/main/java/fr/isen/fidae/isensmartcompanion/EventDetailActivity.kt:126-138 | The payload is exactly the event title under `event_title`, and the trigger time is the clock since boot plus 10 000 ms whatever the event |
| `EventDetail.ReminderDueAtOnce` | app/src/main/java/fr/isen/fidae/isensmartcompanion/EventDetailActivity.kt:138-140 | When the wall clock is at least ten seconds past the clock since boot, the RTC reminder is already due when registered; the same time on the elapsed-realtime clock would not yet be due |
| `EventDetail.Preferences.PutBoolean` | app/src/main/java/fr/isen/fidae/isensmartcompanion/EventDetailActivity.kt:105 | Writing a flag sets that key and leaves the rest of the preference map unchanged |
| `EventDetail.AlarmService.Set` | app/src/main/java/fr/isen/fidae/isensmartcompanion/EventDetailActivity.kt:140 | Setting an alarm overwrites the single slot of the pending intent's request code with the new clock base, time and extras |
| `EventDetail.ScheduleNotification` | app/src/main/java/fr/isen/fidae/isensmartcompanion/EventDetailActivity.kt:125-141 | The alarm table afterwards is the old one with the event's reminder in its request code's slot |
| `EventDetail.EventDetailScreen.constructor` | app/src/main/java/fr/isen/fidae/isensmartcompanion/EventDetailActivity.kt:45-46 | The switch state starts as the stored flag for the event's id, defaulting to off |
| `EventDetail.EventDetailScreen.OnCheckedChange` | app/src/main/java/fr/isen/fidae/isensmartcompanion/EventDetailActivity.kt:103-110 | The switch handler ends in the state `Toggle` gives: display and flag updated, reminder scheduled only when on |

## Left out

- Compose layout and styling (rows, cards, colours, string resources): presentation with no behaviour to state.
- The event list screen and its HTTP client (`EventsScreen.kt`, `EventApiService.kt`): network plumbing, outside the modelled core.
- `AppDatabase.kt`: a Room declaration only. The table is modelled abstractly as a sequence of rows.
- `formatDate`: it formats a timestamp through the platform's locale-dependent date formatter.
- Coroutines, `LaunchedEffect` and `rememberCoroutineScope`. Each handler is one sequential step, and two handlers never interleave.
- A storage fault inside a delete is modelled as atomic: a faulting delete removes nothing.
- `History.MessageDao.DeleteAll`: modelled as infallible. The delete-all handler has no `try`, so a storage fault there would escape the coroutine and is not modelled.
- Appending messages to the table belongs to the chat feature, which is not part of this model.
- `onCreate` reading the event from the intent extras, and the screen shown when it is missing: platform plumbing.
- Android platform services are abstracted. The preference group is a map held in memory; `apply()`'s asynchronous disk write is not modelled. The alarm table is a map from request code to alarm. The pending intent is reduced to its request code and extras; its target receiver and immutability flag are not modelled. Delivering a fired alarm to the notification receiver is not modelled.
- Strings are Dafny strings of Unicode scalar values, so a Kotlin `String` holding an unpaired surrogate cannot be represented, and its hash is not modelled.
- The clocks `SystemClock.elapsedRealtime()` and the wall clock are integer parameters. The 64-bit width of the trigger time is not modelled, because it cannot overflow for real clock readings.
