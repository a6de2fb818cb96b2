# Photo-intake bot: a Dafny model of its conversation core

The bot (`main.py`) lets allow-listed operators send photos through a
Telegram chat and files them on disk under
`<PHOTOS_DIR>/<YY-MM-DD>/<apartment>/<file id>.jpg`. Each conversation runs
a small state machine:

- A photo without a media group becomes the batch at once, and the bot asks
  for an apartment.
- A photo that belongs to an album (a media group) is added to that group's
  list in the session's `album` map. It cancels the session's album task and
  arms a new one that sleeps for two seconds. When a task wakes up and its
  group has photos, that list becomes the batch, the whole `album` map is
  emptied, and the bot asks for an apartment.
- While the bot waits for an apartment, the operator's text is stripped and
  looked up in the fixed `APARTMENTS` list. An unknown name re-prompts. If
  there is nothing to save, the bot reports an error and resets. Otherwise
  the batch is saved and the session is reset.
- Saving creates the date and apartment folders (creating them twice is not
  an error), then downloads each file id in turn. A failed download is
  reported and the loop goes on.

The model has five modules:

- `Keyboard` (keyboard.dfy): splits the apartment list into rows of five.
- `Text` (text.dfy): Python's `str.strip()`.
- `Catalog` (catalog.dfy): the on-disk store as a class holding a set of
  directories and a set of files. It also has the date folder name, the
  photo path, and the batch save loop.
- `Intake` (intake.dfy): the `Session` class.
  - Its fields are the aiogram FSM state and data: `mode`, `album`,
    `fileIds` and the recorded `album_timer`.
  - It also keeps `pending`, the album tasks still asleep, each under a
    token from a counter.
  - It has one method per handler, plus a dispatcher that tries the
    handlers in the order `main.py` registers them.
- `Scenarios` (scenarios.dfy): whole conversations that show the album
  behaviour end to end.

The asyncio timer is modelled by tokens. Arming a task takes the next token
and records it in `pending` with its media group. Cancelling a task removes
its token from `pending`. The end of `asyncio.sleep(2)` is the event
`TimerFired(token)`; for a token no longer in `pending` it does nothing.

Behaviour of `main.py` that the model keeps as it is:

- When an album completes, the whole `album` map is emptied. Suppose a
  photo of a second album arrives while the first album's task sleeps.
  That photo cancels the first album's task, so only the second album is
  handed over, and the first album's photos are dropped
  (`InterleavedAlbums`).
- There is no carry-over of the chosen apartment. The test of a
  `current_apartment` key reads a key that nothing writes, and a successful
  save clears the session.
- `process_apartment` does not check the allow-list. A session reaches it
  only after an allowed user's photo.

## Findings

| source | as written | input that shows it | evidently intended | confidence | as-written member | corrected member |
|---|---|---|---|---|---|---|
| main.py:127-132 | `state.clear()` removes `album_timer` from the session data but does not cancel that task. The next grouped photo finds no `album_timer` (main.py:78), so it arms a second task beside the first | photo "a" of group g1, a reset, then photo "b" of g1: tasks 0 and 1 are both asleep, and task 0's wake-up closes the album after "b" alone | a reset also cancels the sleeping album task, so every sleeping album task is the recorded one and there is at most one | not executed; medium (needs a reset while an album is still arriving) | `Scenarios.ResetLeavesTaskAlive` | `Intake.Session.ProcessApartmentCancelling` |

The as-written reset is `Intake.Session.Clear`, and `Intake.Session.ProcessApartment`
uses it. They prove that after a reset no task is asleep exactly when none was
asleep before; a task asleep before stays asleep with no timer recorded for it. The corrected reset is `Intake.Session.ClearAndCancel`, and
`Intake.Session.ProcessApartmentCancelling` uses it; `Scenarios.ResetCancelsTask` replays
the same conversation with it. `Intake.Session.Dispatch` routes to the corrected
handler, so if every sleeping album task is the recorded one before an event,
the same holds after it (and then at most one task is asleep).

## Model

| member | source | states |
|---|---|---|
| `Keyboard.ApartmentKeyboard` | main.py:33-37 | the rows, read in order, are exactly the apartment list; every row holds 1 to 5 buttons; every row but the last holds exactly 5; there are ceil(n/5) rows |
| `Keyboard.FlattenAppend` | main.py:35-36 | appending a row to the keyboard appends its buttons to the row-by-row reading |
| `Text.IsSpaceExactly` | main.py:115 | the range test accepts exactly the 29 code points listed one by one as CPython's whitespace |
| `Text.TrimStartSpec` | main.py:115 | leading whitespace removed: the result is a suffix, the dropped part is all whitespace, and the result does not start with whitespace |
| `Text.TrimEndSpec` | main.py:115 | trailing whitespace removed: the result is a prefix, the dropped part is all whitespace, and the result does not end with whitespace |
| `Text.StripSpec` | main.py:115 | the result of `Strip` is a slice of the text with only whitespace cut off on both sides, and it neither starts nor ends with whitespace |
| `Text.StripPadded` | main.py:115-116 | a name padded with whitespace on either side strips to the name, so it selects that apartment |
| `Text.StripIdempotent` | main.py:115 | stripping twice gives the same text as stripping once |
| `Catalog.TwoDigits` | main.py:137 | a number below 100 as two decimal digit characters whose decimal value is that number: tens first, then units |
| `Catalog.DateBucket` | main.py:137 | the `%y-%m-%d` folder name is 8 characters long, with dashes at positions 2 and 5; its three two-digit fields read back as the year modulo 100, the month and the day |
| `Catalog.DateBucketSame` | main.py:137-138 | two days share a date folder exactly when day, month and year modulo 100 agree |
| `Catalog.PhotoPathInjective` | main.py:141-148 | `PhotoPath` puts a photo at `<root>/<date>/<apartment>/<id>.jpg`, and two ids share a path exactly when they are equal |
| `Catalog.Prefixes` | main.py:139-142 | `os.makedirs` leaves the folder itself and only prefixes of its path in existence |
| `Catalog.Failed` | main.py:150-152 | the reported ids are exactly the batch's ids whose transfer fails, and there are no more reports than ids |
| `Catalog.FailedCounts` | main.py:144-152 | a failing id is reported once per occurrence in the batch, and any other id is never reported |
| `Catalog.Stored` | main.py:144-149 | every path a batch writes sits directly in `<root>/<date>/<apartment>` |
| `Catalog.StoredExactly` | main.py:144-149 | a photo's path is written exactly when its id is in the batch and its transfer succeeds |
| `Catalog.BatchInDirs` | main.py:139-149 | after a batch is written into existing folders, every file still sits in an existing directory |
| `Catalog.Store.constructor` | main.py:26 | the photo root and its prefixes exist afterwards; the directories and files that earlier runs left are kept |
| `Catalog.Store.MakeDirs` | main.py:139 | the path and all its prefixes exist afterwards; existing directories and files are kept |
| `Catalog.Store.Write` | main.py:149 | a download needs its directory to exist and adds exactly that file |
| `Catalog.SaveEach` | main.py:144-152 | every id is tried in order; the files added are exactly the stored paths of the fetchable ids; the failures are `Failed` of the batch; directories are untouched |
| `Catalog.SaveBatch` | main.py:135-152 | creates the date and apartment folders, then adds exactly the fetchable ids' paths and reports exactly the failing ids; every file stays in an existing directory |
| `Intake.Session.constructor` | main.py:22-23 | a fresh conversation has no state, no data and no sleeping task |
| `Intake.Session.Clear` | main.py:132 | no state and empty data. Sleeping album tasks are left running, so if one was asleep, none is recorded for it afterwards |
| `Intake.Session.ClearAndCancel` | main.py:132 | the corrected reset: no state, empty data and no sleeping task |
| `Intake.Session.HandlePhoto` | main.py:49-91 | a refused user, or a photo without a file id, changes nothing. A grouped photo is appended to its group, and every other group is kept. It cancels the recorded task and arms exactly one new task, which becomes the recorded timer. A single photo replaces the batch with itself and waits for an apartment, leaving the album and the timers alone. If every sleeping task was the recorded one before, the same holds after |
| `Intake.Session.FireTimer` | main.py:94-109 | a cancelled or finished task changes nothing. A task whose group is empty only ends. Otherwise the batch becomes exactly that group's ids, the whole album map is emptied, the timer is cleared and the session waits for an apartment |
| `Intake.Session.SelectAndSave` | main.py:113-130 | one of four outcomes, with the session only read. A message without text raises. A stripped name not in `APARTMENTS` re-prompts. An empty batch gives an error. In these three the store is unchanged. Otherwise the batch is saved under the stripped name: exactly the fetchable ids' files are added and the failures are reported |
| `Intake.Session.ProcessApartment` | main.py:112-132 | the outcomes of `SelectAndSave`; the first two change nothing, the last two reset the session as `state.clear()` does, and after such a reset no task is asleep exactly when none was before; a task asleep before stays asleep with no timer recorded |
| `Intake.Session.ProcessApartmentCancelling` | main.py:112-132 | the same outcomes with a reset that cancels the sleeping tasks, so no task is asleep after it; if every sleeping task is the recorded one before, the same holds after |
| `Intake.Session.Dispatch` | main.py:40-112 | handlers in registration order: `/start` is answered by the allow-list test and changes nothing. Any photo, in any mode, has exactly the photo handler's effect. Any other message has the apartment handler's effect while waiting and is ignored otherwise. A wake-up has exactly its task's effect and never touches the store. If every sleeping task is the recorded one before an event, the same holds after it |
| `Scenarios.AlbumDebounce` | main.py:69-109 | two photos of one album: the first photo's task is cancelled and its wake-up does nothing; the second task hands over both ids in arrival order |
| `Scenarios.InterleavedAlbums` | main.py:69-109 | a second album's photo cancels the first album's task, and completing the second album discards the first album's photos |
| `Scenarios.UnknownApartment` | main.py:112-119 | through the dispatcher, an unlisted reply to a single photo re-prompts and keeps the waiting photo and the files on disk |
| `Scenarios.StrangerIgnored` | main.py:52-53 | a photo from a user who is not on the allow-list leaves the session empty |
| `Scenarios.ResetLeavesTaskAlive` | main.py:78-85 | after a reset, the next album photo leaves the old task asleep beside the new one, and the old task's wake-up closes the new album |
| `Scenarios.ResetCancelsTask` | main.py:78-85 | with the corrected reset, the next album photo arms the only live task and the old token's wake-up does nothing |

## Left out

- `Intake.Session.Dispatch`: messages in the waiting state go to the corrected handler `ProcessApartmentCancelling` (see Findings). The as-written reset of `main.py` is stated by `Intake.Session.ProcessApartment` and `Scenarios.ResetLeavesTaskAlive`; the dispatcher does not route to it.
- The aiogram `Bot`, the `Dispatcher` set-up, polling, and the per-chat keying of `MemoryStorage`. The model is one conversation, and events are routed by `Intake.Session.Dispatch`.
- Real time. The model lets tasks wake up in any order, including orders that the two-second sleeps would rule out. Each handler runs as one atomic step; interleaving at its `await` points is not modelled.
- `datetime.now()`. The date folder is a parameter; `Catalog.DateBucket` gives its format.
- `bot.get_file` and `bot.download_file`. Whether a transfer succeeds is given as the set of file ids that can be fetched. A failed transfer writes nothing. The exception text of an error report is not modelled.
- Logging, the wording of replies, and the `ReplyKeyboardMarkup` flags (`resize_keyboard`, `one_time_keyboard`). Replies are kept only as their kind, and keyboards only as their rows.
- The `current_apartment` branch of the photo handler. Nothing ever writes that key, so the branch never runs.
- Catalog listing, date/apartment pickers and zip export. They are not part of `main.py`.
- `Scenarios`: saving is not run end to end inside a scenario. Its outcome is stated by `Intake.Session.SelectAndSave`, `Catalog.SaveBatch` and `Catalog.StoredExactly`.
