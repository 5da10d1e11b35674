# Telegram channel cloner: migration engine and start-form validator

This project models, in Dafny, the core of a desktop tool that copies the
history of one or more Telegram channels (the *sources*) into a target
channel, then keeps forwarding new posts ("live tail") until the user presses
stop. The engine is `TelegramLogic` in `telegram_logic.py`. It keeps a
*progress ledger*: a map from a source's id, as a string, to the id of the
last message it handled. The ledger is written to `progress.json` after every
change, so a later run resumes where the previous one stopped. The front end's
`AppController` in `main.py` checks the start form, parses the source list,
builds the engine and stops it on request.

The model has these modules, one per file:

- `Transport` (`transport.dfy`): what the engine sees of Telegram.
  - A source's messages are a sequence of `Item`s. Each has an id, a
    service-message flag and the scripted outcome of forwarding it: success,
    a flood wait of `n` time units, or any other error.
  - An enumeration yields its items and then either ends or raises when
    asked for the next one (an id the client cannot resolve, a rate limit
    it does not sit out itself). A raise leaves `_run`, which still
    disconnects, with the ledger as backfill left it.
  - Live-tail notifications carry a `chat_id` and a peer `channel_id`.
  - Every externally visible effect is an `Event` appended to a trace. A
    `Recorded(key, id)` event is one durable write of the ledger file.
- `Numerals` (`numerals.dfy`): the parts of Python's text handling that the
  code relies on: `str.strip`, `str.split(",")`, `int()` on decimal
  literals, and `str()` of an integer, which forms the ledger keys.
- `Authorization` (`authorization.dfy`): `_authorize` as a function. Its
  inputs are the "already authorized" probe, the three prompt answers and
  the sign-in replies. Its result is `Authorized` or `Aborted(reason)`,
  together with the calls it made.
- `Migration` (`migration.dfy`): the engine as functions on a `State`. The
  state holds the ledger, the `is_running` flag, how many times the flag has
  been read, and the trace.
  - A stop from the UI thread is given as a schedule `stopAt`. `stop()` is
    called just before the `stopAt`-th read of the flag in a run.
  - Every `if not self.is_running`, every `if self.is_running`, every
    handler check and every `while self.is_running` test counts as one read.
- `Engine` (`engine.dfy`): `TelegramLogic` as a class whose methods update
  `progress` and `isRunning` in place. Its loops, with their `break`
  checkpoints, are the source's own loops, with one exception: the `for`
  over the notifications in `MonitorNewPosts` stands for Telethon
  dispatching each new post to the registered handler. Each method is proved
  to leave exactly the state that the matching `Migration` function
  describes.
- `BackfillProperties` (`backfill_properties.dfy`): what the backfill loop
  guarantees.
  - A closed form of its effect.
  - The ledger value never decreases while a source is replayed oldest
    first.
  - The resume point.
  - Each item is attempted exactly once.
  - What a later run enumerates again, and the two consequences of the code
    described below.
- `RunProperties` (`run_properties.dfy`): whole runs.
  - A run writes no key other than those of its sources and of its live
    chats.
  - Stop behaviour, and live tail entered only when the flag survived
    backfill.
  - A worked run over two sources, once with every forward succeeding and
    once with a flood wait on the second item.
- `Validation` (`validation.dfy`): the ordered checks of
  `AppController.start_migration` and its comma-separated source parser, as
  pure functions.
- `Controller` (`controller.dfy`): `AppController` as a class. It covers
  `start_migration` after validation (save the credentials, build the engine,
  hand over the request) and the `stop_migration` guard.

Behaviour of the code worth noting:

- After a flood wait the code does not retry the item. It sleeps, and the
  `async for` moves on to the next item, so that item is neither forwarded
  nor recorded (`telegram_logic.py:127-129`). A later write of a newer id
  means no later run enumerates it again
  (`BackfillProperties.FloodWaitedItemIsLost`).
- The ledger value is not monotone in every case. With a fixed start date,
  the ledger is not consulted, so replaying an older message overwrites a
  larger recorded id (`BackfillProperties.DateModeCanLowerLedger`).
  Monotonicity holds in id mode and, more generally, whenever the items come
  oldest first above the recorded id (`BackfillProperties.BackfillMonotone`).
- For any other forwarding error, the code records the item first and then
  sleeps 5 units.
- Not every invalid input is rejected before any side effect. The API id is
  never checked to be an integer: `int(api_id)` runs in the engine's
  constructor, after the credentials were saved
  (`Controller.AppController.Launch`). It runs on the raw entry, so an
  information separator (characters 28-31) around the id, which the form's
  `strip()` check ignores, makes it fail (`Numerals.IntOf`).
- A source field made only of commas and whitespace passes validation and
  reaches the engine as an empty list, which the engine then refuses
  (`Controller.SeparatorsOnlyReachEngine`).

## Model

| member | source | states |
|---|---|---|
| Migration.RecordSetsOneKey | telegram_logic.py:53-55 | recording sets the key to the id, every other key keeps its presence and value, and the ledger is written once |
| Engine.TelegramLogic.UpdateProgress | telegram_logic.py:53-55 | the in-place update sets the key, leaves every other key as it was, and writes the ledger file through (the file then holds the ledger) |
| Engine.LoadProgress | telegram_logic.py:40-47 | a missing or unreadable progress file gives the empty ledger; a stored one gives its content |
| Engine.TelegramLogic.SaveProgress | telegram_logic.py:49-51 | the file then holds exactly the in-memory ledger; nothing else changes |
| Engine.TelegramLogic.constructor | telegram_logic.py:19-34 | the ledger is loaded from the file, the flag is clear, and the API fields and start date are kept |
| Authorization.Authorize | telegram_logic.py:57-81 | the calls are a prefix of the protocol (probe, phone prompt, code request, code prompt, code sign-in, password prompt, password sign-in), each at most once; already authorized means only the probe; authorized iff phone and code are given, the code is sent and the sign-in succeeds, directly or through an accepted password; an empty or cancelled phone aborts before any code request; the phone, code and password sent are the prompted ones; an invalid code aborts |
| Authorization.CancelledPromptAborts | telegram_logic.py:63-77 | an empty or cancelled answer at any prompt aborts with that prompt as the last call |
| Engine.TelegramLogic.Authorize | telegram_logic.py:57-81 | the method returns the handshake's result and only appends its calls to the trace; ledger, flag and file are untouched |
| Migration.Poll | telegram_logic.py:115-116 | a read of the flag gives `True` iff it was set and the stop has not yet come; ledger and trace are unchanged |
| Engine.TelegramLogic.StillRunning | telegram_logic.py:115-116 | the method returns the flag as it reads after the scheduled stop, exactly as `Migration.Poll` |
| Migration.StartPointFor | telegram_logic.py:104-112 | with a start date the enumeration starts at that date and the ledger is not consulted; otherwise it starts after the source's ledger value, or from the beginning (0) when the key is absent |
| Migration.HandleItem | telegram_logic.py:118-133 | a service item or a forwarded or failed item sets the source's key to its id; a flood-waited item leaves the ledger untouched; the effects are one forward attempt (none for a service item), the write, then a pause of 2, `n` or 5 |
| Engine.TelegramLogic.HandleItem | telegram_logic.py:118-133 | the in-place loop body leaves exactly the state `Migration.HandleItem` gives and keeps the file in step with the ledger |
| Engine.TelegramLogic.ForwardMessage | telegram_logic.py:83-99 | one forward attempt to the target, whose result is the item's scripted outcome |
| Migration.MigrateItems | telegram_logic.py:114-133 | the backfill loop only appends to the trace |
| Engine.TelegramLogic.Backfill | telegram_logic.py:114-133 | the `async for` loop with its `break` leaves exactly the state `Migration.MigrateItems` gives, and reports that it got to the end of the items iff there were none or the flag still reads `True` |
| Migration.MigrateSource | telegram_logic.py:101-133 | the first effect is the enumeration of the source from the start point `StartPointFor` chooses |
| BackfillProperties.MigrateSourceEnumeratesOnce | telegram_logic.py:101-133 | the source is enumerated exactly once, first, from the start point `StartPointFor` chooses; every later effect is a forward, a ledger write or a pause, so nothing else is enumerated |
| Engine.TelegramLogic.MigrateSource | telegram_logic.py:101-133 | the method leaves exactly the state `Migration.MigrateSource` gives and keeps the file in step; started with the flag set, it reports a raise iff the loop got to the end of the items (the flag still reads `True`) and the enumeration raises when asked for the next one |
| BackfillProperties.Processed | telegram_logic.py:114-116 | the number of items handled never exceeds the number enumerated, and is all of them when no stop comes |
| BackfillProperties.LastRecordedAt | telegram_logic.py:118-132 | the position of the last item backfill writes: it is recordable and nothing after it is; none exactly when no item is recordable |
| BackfillProperties.BackfillOutcome | telegram_logic.py:114-133 | closed form of the loop: exactly the first `n` items are handled, where `n` counts the flag reads that gave `True`; the ledger holds the last recordable id among them under the source's key and no other key changes; the trace gains exactly their effects in order; the flag survives only if no read gave `False` |
| BackfillProperties.ResumePointAtExhaustion | telegram_logic.py:118-132 | when no stop comes, the source's ledger value is the largest id among the items that were service, forwarded, or failed without a flood wait |
| BackfillProperties.BackfillMonotone | telegram_logic.py:114-133 | with ids increasing above the recorded one, the source's ledger value after a longer prefix of the enumeration is never smaller than after a shorter one, stopped or not |
| BackfillProperties.AttemptsAndWrites | telegram_logic.py:118-133 | every non-service item is attempted exactly once, in order, with no retry after a flood wait and no attempt for a service item; the ledger is written once per recordable item, in order |
| BackfillProperties.ItemIds | telegram_logic.py:118-133 | one item gives one forward attempt iff it is not a service item, and one write iff it is recordable |
| BackfillProperties.MigrateSourceLedger | telegram_logic.py:109-133 | in id mode the ledger after a source is the closed form over what the transport yields after the recorded id |
| BackfillProperties.ResumeOnSuffix | telegram_logic.py:109-132 | on an increasing history, enumerating after the id left by handling a prefix gives exactly the items behind the last one written |
| BackfillProperties.ResumeAfterInterruption | telegram_logic.py:101-133 | with a transport that honours `offset_id`, a run stopped anywhere in a source (or one that finished it) makes the next run enumerate exactly the items behind the last one written to the ledger |
| BackfillProperties.FloodWaitedItemIsLost | telegram_logic.py:127-132 | an item whose forward hit a flood wait, followed by any written item, is never enumerated again |
| BackfillProperties.DateModeCanLowerLedger | telegram_logic.py:106-108 | with a fixed start date, one recordable item older than the recorded id lowers the source's ledger value |
| Migration.RunSources | telegram_logic.py:179-182 | the source loop only appends to the trace; when an enumeration raised, the source it names is one of the list and the flag still reads `True` |
| Migration.ChatOf | telegram_logic.py:148-153 | the chat recorded for a live post is its `chat_id` when truthy, else its peer's `channel_id` when truthy, else none, and is never 0 |
| Migration.HandleNotification | telegram_logic.py:139-159 | the handler reads the flag once and does nothing once it is `False`; it ignores service messages; otherwise it forwards first, and writes the chat's key only after a successful forward of a message with a known chat; a flood wait or any other failure writes nothing |
| Engine.TelegramLogic.HandleNewMessage | telegram_logic.py:139-159 | the handler leaves exactly the state `Migration.HandleNotification` gives |
| Migration.HandleAll | telegram_logic.py:139-163 | handling the notifications only appends to the trace |
| Migration.WaitForStop | telegram_logic.py:165-167 | the wait loop ends with the flag `False`, after at least one read, without touching the ledger |
| Migration.MonitorNewPosts | telegram_logic.py:135-171 | live tail ends with the flag `False`; its first effect is the subscription to the sources; with a truthy handle its last effect is the removal of the handler |
| Engine.TelegramLogic.MonitorNewPosts | telegram_logic.py:135-171 | registration, the handler over each notification and the `while` wait loop leave exactly the state `Migration.MonitorNewPosts` gives |
| Migration.Run | telegram_logic.py:173-188 | the run fails to connect iff the connection fails; it aborts in authorization iff connected and the handshake aborts, with the handshake's reason; it fails with `EnumerationFailed` iff the handshake ends authorized and an enumeration raises in the source loop, naming that source of the list and keeping the ledger backfill reached; a connect or authorization failure leaves the ledger untouched; a passed run ends with the flag `False`; the first effect is the connect, and the last is the disconnect iff the connection succeeded |
| Engine.TelegramLogic.Run | telegram_logic.py:173-188 | the method, with its source loop and `break`, leaves exactly the state and outcome `Migration.Run` gives |
| Migration.Start | telegram_logic.py:190-200 | the start is refused iff the source list is empty, and then nothing changes; otherwise the flag is `False` afterwards, whether the run passed or failed; a start that fails other than by a raising enumeration leaves the ledger untouched; a raising enumeration names one of the sources |
| Engine.TelegramLogic.StartMigration | telegram_logic.py:190-200 | an empty list is refused before the flag is set; otherwise the flag is cleared on the way out |
| Engine.TelegramLogic.Stop | telegram_logic.py:202-203 | only the flag is cleared; ledger, counter, trace and file are unchanged, so a second stop changes nothing |
| RunProperties.MigrateItemsFrame | telegram_logic.py:114-133 | backfilling a source changes no ledger key but the source's own |
| RunProperties.RunSourcesInOrder | telegram_logic.py:179-182 | the sources are enumerated one at a time, in the given order: those enumerated are a prefix of the list, each once; the whole list when the flag still reads `True` at the end and nothing raised; and, when an enumeration raised, the prefix ends with that source |
| RunProperties.RunSourcesFrame | telegram_logic.py:179-182 | the source loop changes no ledger key but those of the given sources |
| RunProperties.HandleAllFrame | telegram_logic.py:139-159 | the live handler changes no ledger key but those of the notifications' known chats |
| RunProperties.StartFrame | telegram_logic.py:173-200 | a whole run changes no ledger key other than those of its sources and of its live chats |
| RunProperties.StopBeforeFirstCheck | telegram_logic.py:179-188 | a stop before the first read: the run connects, authorizes and disconnects, and enumerates, forwards and records nothing |
| RunProperties.StopSkipsRemainingSources | telegram_logic.py:179-181 | once the flag reads `False`, no further source is enumerated and the ledger stays as it is |
| RunProperties.NoLiveTailAfterStop | telegram_logic.py:184-187 | when an enumeration raised, or the read after the source loop gives `False` (a stop during backfill or just after its last source), live tail is not entered: the run's ledger and effects are backfill's, then the disconnect |
| RunProperties.SourceLoopEffects | telegram_logic.py:179-182 | the source loop only enumerates sources and forwards, writes and pauses for their items |
| RunProperties.LiveTailOnlyWhileRunning | telegram_logic.py:173-188 | the run subscribes to new posts iff it connected, the handshake ended authorized, no enumeration raised and the read after the source loop gives `True`; after an authorized handshake the final ledger is then what the live handler made of backfill's ledger, and otherwise backfill's ledger |
| RunProperties.QuietRun | telegram_logic.py:173-188 | a run that is already authorized (no prompts), whose enumerations do not raise, whose flag survives backfill, whose live tail sees no notification, whose handler registration returns a truthy handle, and whose stop lands exactly at the first read of the wait loop, passes and ends with backfill's ledger and effects, then subscribe, unsubscribe, disconnect |
| RunProperties.ScenarioTwoSources | telegram_logic.py:101-200 | two sources from an empty ledger: 5 and 6 forwarded, the service message 7 recorded without a forward, then 1 from the second source, then live tail; with a flood wait of 30 on 6 the wait happens, 6 is attempted once, and the final ledger is the same `{s1: 7, s2: 1}` |
| Validation.Kept | main.py:127-128 | the pieces kept are non-empty, no more than were split |
| Validation.KeptOne | main.py:127-128 | a single piece is kept, stripped, exactly when it is not blank |
| Validation.KeptConcat | main.py:127-128 | pieces are kept one by one in input order: keeping two runs of pieces keeps those of the first, then those of the second (with `KeptOne` this fixes the comprehension on every input) |
| Validation.ParsePiecesOutcome | main.py:121-132 | the comprehension over the comma-separated pieces of the stripped source entry (`Validation.ParseSources` applies it to exactly those pieces) succeeds exactly when every kept piece is an integer literal, and then gives one value per kept piece, in order, duplicates included |
| Validation.OneBadPieceRejects | main.py:126-132 | one non-blank piece that is not an integer literal, wherever it stands, rejects the whole list |
| Validation.ParseAll | main.py:126-132 | the list parses iff every kept piece is an integer literal; one bad piece rejects the whole list; the values come in input order, one per piece |
| Validation.SourcesRoundTrip | main.py:126-129 | any non-empty list of ids, written in decimal and joined with commas, parses back to the same list, order and duplicates preserved |
| Validation.SeparatorsOnlyGiveNoSources | main.py:121-129 | source text of commas and whitespace with at least one comma is not blank, and parses to the empty list |
| Validation.StartDate | main.py:145-148 | the start date is present iff the checkbox is ticked, and is then midnight of the selected date |
| Validation.Validate | main.py:117-148 | the five checks in order, each error iff every earlier check passed and this one fails (blank API id or hash; blank sources; a non-integer source; blank target; non-integer target); a valid form yields the parsed sources, target and start date |
| Numerals.ParseInt | main.py:127-128 | `int()` of stripped text succeeds iff it is an optional sign followed by ASCII digits |
| Numerals.IntOf | telegram_logic.py:27 | `int()` of the raw API entry: an information separator (28-31) anywhere makes it fail, since `int()` skips only tab, line feed, vertical tab, form feed, carriage return and space; text without one reads exactly as its `strip()` does |
| Numerals.IntTrimLeftIsStripLeft | telegram_logic.py:27 | without information separators, the leading whitespace `int()` skips is that of `str.lstrip()` |
| Numerals.IntTrimRightIsStripRight | telegram_logic.py:27 | without information separators, the trailing whitespace `int()` skips is that of `str.rstrip()` |
| Numerals.Str | telegram_logic.py:102 | `str()` of an id is a non-empty decimal literal that parses back to the id |
| Numerals.StrInjective | telegram_logic.py:102 | distinct sources have distinct ledger keys |
| Numerals.Split | main.py:128 | the pieces contain no comma and join back to the text |
| Numerals.SplitOfJoin | main.py:128 | splitting a join of comma-free pieces gives the pieces back |
| Controller.AppController.StartMigration | main.py:117-166 | an invalid form returns the first failing check's error and changes nothing: no credentials saved, no engine, no request; a valid one saves or deletes the credentials; it launches iff `int()` of the raw API entry succeeds (`IntOf`), and then a fresh engine holds the stored ledger, the API fields and the start date, with the flag clear, and receives the parsed request; the class invariant (an engine's progress file holds its ledger) is kept |
| Controller.AppController.Launch | main.py:150-166 | the credentials are written before the engine is built; the engine is built iff `int()` of the raw API entry succeeds (`IntOf`), so an id that is not an integer, or that has an information separator around it, fails after the credentials were saved and leaves the previous engine in place |
| Controller.AppController.SaveCredentials | main.py:53-64 | with saving on, the entered fields are stored; with it off, the credentials are deleted; the engine and the launched request are unchanged |
| Controller.AppController.StopMigration | main.py:177-182 | the engine is stopped iff one exists and is running; otherwise nothing changes; its ledger, counter, trace and file never change |
| Controller.SeparatorsOnlyReachEngine | main.py:121-129 | a source field of commas and whitespace passes every check as an empty list, and the engine refuses it without changing its state |

## Left out

- Telethon and the network: connecting, enumerating a source, forwarding,
  the sign-in calls and handler registration are inputs. The model fixes
  whether connecting succeeds, what each enumeration yields and whether it
  then raises, each forward's outcome, the sign-in replies, whether
  registration returns a truthy handle, and the notifications. An
  enumeration that fails part-way is one that yields the items fetched
  before the failure and then raises. Other transport errors are not
  modelled: a failing disconnect, and a failing handler registration or
  removal.
- The `as_copy` `TypeError` fallback of `_forward_message`: it is library
  version compatibility and forwards the same message either way.
- Real time: each `asyncio.sleep(n)` is a `Sleep(n)` event. The UI thread's
  `stop()` is a schedule (`stopAt`), not a concurrent call.
- Timing of notifications: they are all handled before the first read of
  the flag in the wait loop. In the source they may arrive between any two
  reads.
- JSON encoding of the progress file. The model departs from the program
  for a file whose content is valid JSON but not a mapping from strings to
  integers: the program loads it and fails later, at the ledger lookup or
  update, while the model treats it as unreadable and starts from the empty
  ledger. A failing
  write of the ledger file is not modelled: every write succeeds.
- Fernet encryption of the credentials, and loading them back. The model
  stores the raw entry texts.
- Threads: the worker thread, its `is_alive` guard at the top of
  `start_migration`, the dialog bridge, the log queue and all log and
  message-box texts.
- Python's `int()` also accepts underscores between digits and non-ASCII
  digits. Python's `str.strip()` and `int()` also skip non-ASCII
  whitespace. The model knows only ASCII digits and ASCII whitespace.
- `gui.py` is not part of this model: a cancelled dialog gives `None` and
  OK gives the entry text, which `Given` treats alike.
- Migration.MonitorNewPosts: removal of the handler is stated one way only.
  A truthy handle makes `Unsubscribe` the last effect. The converse, that
  no other case ends with it, is not stated.
