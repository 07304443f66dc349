# Session recorder extension: a Dafny model

This project models the capture, hand-off, storage and selection pipeline of a browser extension that records user sessions. The pipeline has five parts:

- **The page context** (`src/contents/plasmo.ts`). A content script keeps a recording flag, a buffer of captured events and the capture engine's stop function. A `SET` runtime message toggles recording. Stopping a non-empty session sends it once as a `SAVE_RECORDING` message with `timestamp`, `url`, `records` and `duration` (last event time minus first). A `GET` message reports the flag.
- **The background context** (`src/background.ts`). It stores each `SAVE_RECORDING` payload and answers exactly once, with `{success: true}` or `{success: false, error}`.
- **The recording store** (`src/lib/indexeddb.ts`). This is one object store keyed by `id` with a key generator. Following section 2.11 of the W3C Indexed Database API, the generator starts at 1, goes up by one per add, and never hands a key out twice, even after deletes. `getAll` lists records in ascending key order, `get` yields null for a missing key, and `delete` succeeds whether or not the key exists.
- **The options page** (`src/options.tsx`). It lists the stored recordings newest first, keeps a selection, and deletes after the user confirms. It hands the selected recording's events to the player and prints durations as `m:ss`.
- **The recording list** (`src/components/RecordList.tsx`). It marks the active item and runs the delete confirmation dialog.

The files are organised as follows:

- `types.dfy` holds the shared values: event, draft, stored recording and runtime message.
- `recorder.dfy`, `store.dfy`, `background.dfy`, `options.dfy` and `record_list.dfy` each model one source file.
- `pipeline.dfy` composes them: a whole session runs from the first `SET` to the stored recording and its place in the options list.

Each imperative source file has two parts:

- Pure functions over a datatype state say what each step means. Lemmas about them carry the interesting properties.
- A class holds the source's mutable variables. Its methods are proved to make exactly those steps, `ensures State() == Step(old(State()), …)`.

The environment becomes method parameters:

- `Date.now()` and `window.location.href` are `now` and `url`.
- The answer to `confirm()` is `confirmed`.
- A storage error the browser reports is `fault: Option<string>`.

## Model

| member | source | states |
|---|---|---|
| Types.WithId | src/lib/indexeddb.ts:6-12 | A stored recording keeps every field of the saved draft and carries the key it was stored under |
| Types.IdRoundTrip | src/lib/indexeddb.ts:35-37 | Removing the key from a stored recording gives back exactly the draft that was saved |
| Types.Duration | src/contents/plasmo.ts:38-41 | The duration is 0 for no events; otherwise the first timestamp plus the duration is the last. It is never negative when timestamps never go back |
| Types.DurationIsSpan | src/contents/plasmo.ts:38-41 | For events whose timestamps never go back, the session duration is non-negative and spans every event |
| Recorder.Emitted | src/contents/plasmo.ts:19-21 | An emitted event is appended at the end of the buffer; earlier events, the flag and the stop function are untouched |
| Recorder.Started | src/contents/plasmo.ts:16-23 | Starting capture keeps a stop function and changes neither the flag nor the buffer |
| Recorder.Stopped | src/contents/plasmo.ts:26-52 | With no stop function nothing changes and nothing is sent. Otherwise capture stops and the buffer is cleared. A session is sent iff the buffer was non-empty, with exactly the buffered events, duration last minus first timestamp, and the given time and address |
| Recorder.Toggled | src/contents/plasmo.ts:55-62 | The flag is flipped. Turned on, capture runs with the buffer kept and nothing sent. Turned off, the step is exactly a stop. Afterwards the flag always agrees with capture |
| Recorder.Answered | src/contents/plasmo.ts:64-80 | `GET` replies with the flag and changes nothing. `SET` replies once with the new flag after the toggle and keeps the channel open. Any other action gets no reply and changes nothing |
| Recorder.ToggleKeepsSettled | src/contents/plasmo.ts:55-62 | From a consistent state with an empty buffer while idle, a toggle keeps it so; turning off returns to the initial idle state |
| Recorder.FlagParity | src/contents/plasmo.ts:55-62 | Over any run of messages and emits, the flag flips once per `SET` and the state stays settled. Every session sent in the run holds at least one event |
| Recorder.InitialFlagParity | src/contents/plasmo.ts:10-14 | From the initial state, after k `SET` messages the flag is true iff k is odd |
| Recorder.Step | src/contents/plasmo.ts:18-22 | One input to the content script. Only a `SET` that stops a non-empty capture sends a session, and what it sends is the buffer |
| Recorder.StepMeaning | src/contents/plasmo.ts:18-22 | An emit while idle changes nothing. An emit while capturing appends the event and keeps the flag. A message other than `SET` leaves the state unchanged, and a `SET` flips the flag |
| Recorder.EmitsAppend | src/contents/plasmo.ts:18-22 | While capturing, a run of emits appends them to the buffer in arrival order and sends nothing |
| Recorder.StartSession | src/contents/plasmo.ts:55-58 | A `SET` from idle starts capture with an empty buffer and sends nothing |
| Recorder.StopSession | src/contents/plasmo.ts:59-61 | A `SET` while capturing `es` returns to idle and sends one session holding `es`, or none when `es` is empty |
| Recorder.SessionCaptured | src/contents/plasmo.ts:16-62 | A whole session from idle (`SET`, emits, `SET`) ends idle and sends exactly one session of those events and their span, or none for no events |
| Recorder.SessionSpan | src/contents/plasmo.ts:38-41 | When the engine's timestamps never go back, every session sent by a whole session lasts a non-negative time covering all its events |
| Recorder.ThreeEventSession | src/contents/plasmo.ts:33-47 | Events at 100, 250 and 400 ms give one saved session of the three events lasting 300 ms |
| Recorder.ContentScript.constructor | src/contents/plasmo.ts:10-14 | Initially the flag is false, the buffer is empty and there is no stop function |
| Recorder.ContentScript.Emit | src/contents/plasmo.ts:19-21 | The `emit` callback makes exactly the `Emitted` step |
| Recorder.ContentScript.StartRecord | src/contents/plasmo.ts:16-23 | Makes exactly the `Started` step |
| Recorder.ContentScript.StopRecord | src/contents/plasmo.ts:26-52 | Makes exactly the `Stopped` step and returns the session it sends |
| Recorder.ContentScript.ToggleRecord | src/contents/plasmo.ts:55-62 | Makes exactly the `Toggled` step; afterwards the flag agrees with capture whatever the state before |
| Recorder.ContentScript.OnMessage | src/contents/plasmo.ts:64-80 | Replies, keeps the channel open and changes state exactly as `Answered` says |
| Store.Added | src/lib/indexeddb.ts:25-28 | An add stores the draft plus the generator's current number, a key not yet in use. Every old record is unchanged, and the generator moves past the key |
| Store.Removed | src/lib/indexeddb.ts:78-88 | A delete removes only that key, present or not. Every other record and the generator are unchanged |
| Store.Lookup | src/lib/indexeddb.ts:65-75 | A get yields the record iff its key is stored, and that record carries the key |
| Store.InKeyOrder | src/lib/indexeddb.ts:52-62 | The records with keys in a range are listed, each one once, in strictly ascending key order, and nothing else |
| Store.AllRecords | src/lib/indexeddb.ts:52-62 | getAll lists every stored record and nothing else, in strictly ascending key order |
| Store.AddAppendsNewest | src/lib/indexeddb.ts:35-49 | After an add, the listing is the old listing followed by the new record |
| Store.AddThenGet | src/lib/indexeddb.ts:35-75 | The key just used reads back as the draft plus that key; every other key reads as before |
| Store.DeleteThenGet | src/lib/indexeddb.ts:65-88 | A deleted key reads as absent; every other key reads as before |
| Store.Apply | src/lib/indexeddb.ts:25-28 | Any sequence of adds and deletes keeps the store well formed, with every key between 1 and the generator |
| Store.KeysNeverReused | src/lib/indexeddb.ts:25-28 | Over any adds and deletes, generated keys strictly increase. None is below the generator's starting number, so no key is reused after a delete. The generator ends above all of them |
| Store.RecordingStore.constructor | src/lib/indexeddb.ts:25-28 | A new store is empty with the generator at 1 |
| Store.RecordingStore.SaveRecording | src/lib/indexeddb.ts:35-49 | Resolves with no value once the add request succeeds and makes exactly the `Added` step, or rejects with the storage error and changes nothing |
| Store.RecordingStore.GetAllRecordings | src/lib/indexeddb.ts:52-62 | Read-only. Yields every stored record once in ascending key order, or the storage error |
| Store.RecordingStore.GetRecording | src/lib/indexeddb.ts:65-75 | Read-only. Yields the record iff the key is stored, null otherwise, or the storage error |
| Store.RecordingStore.DeleteRecording | src/lib/indexeddb.ts:78-88 | Resolves with no not-found signal once the delete request succeeds and makes exactly the `Removed` step, or rejects and changes nothing |
| Background.ReplyFor | src/background.ts:11-18 | The reply reports success iff the save resolved, and carries the error message only on failure |
| Background.OnMessage | src/background.ts:6-22 | For `SAVE_RECORDING` the channel stays open and there is exactly one reply. On success it is `{success: true}` and the unmodified data is added. On failure it is `{success: false, error}` and the store is unchanged. Any other message gets no save and no reply |
| Options.Reversed | src/options.tsx:24 | The list reversed: element i is element n-1-i of the original |
| Options.ReversedSameElements | src/options.tsx:24 | Reversing keeps exactly the same elements |
| Options.NewestFirst | src/options.tsx:22-24 | A loaded list holds every stored record and nothing else, in strictly descending key order, so the newest comes first |
| Options.SelectionAfterDelete | src/options.tsx:41-43 | The selection is cleared iff the selected recording has the deleted key; otherwise it is kept |
| Options.PlayerEvents | src/options.tsx:128 | The player gets the selected recording's events, or none when nothing is selected |
| Options.DeleteSelectedEmptiesPlayer | src/options.tsx:41-43 | Deleting the selected recording leaves the player with no events; deleting another one leaves its events |
| Options.PadStart2 | src/options.tsx:58 | Shorter than two characters, the text is left-padded with zeros to two; otherwise it is unchanged |
| Options.JsRemainder60 | src/options.tsx:57 | JavaScript's `% 60` agrees with the modulus for non-negative numbers and lies in (-60, 0] for negative ones |
| Options.IntToString | src/options.tsx:56-58 | `toString()` starts with a minus sign exactly for a negative number; the rest is decimal digits that read back as the magnitude |
| Options.DecimalRoundTrip | src/options.tsx:58 | A number's decimal text is all digits and reads back as the number |
| Options.PaddedSeconds | src/options.tsx:57-58 | Seconds below a minute, converted to text and padded, are exactly two digits that read back as the seconds |
| Options.SecondsParts | src/options.tsx:56-58 | For non-negative seconds, the minutes' `toString()` is their decimal digits, and the padded remainder is the seconds below a minute as two digits |
| Options.ParseMinutesSeconds | src/options.tsx:54-59 | For whole seconds s ≥ 0, the text `m:ss` built from s/60 and s mod 60 reads back as s |
| Options.ParseMinutesAndSeconds | src/options.tsx:56-58 | Any minutes m and seconds ss below a minute, written as m's digits, a colon and ss as two digits, read back as m·60 + ss |
| Options.SplitAtColon | src/options.tsx:58 | A digit string, a colon and two digits read back as the first number times 60 plus the second |
| Options.MinutesSeconds | src/options.tsx:56-58 | For whole seconds s ≥ 0, the text is the decimal s/60, a colon, and s mod 60 as two digits, and it reads back as s. The text starts with a minus sign exactly when s is negative |
| Options.FormatDuration | src/options.tsx:54-59 | For a duration d ≥ 0, with s the whole seconds of d, the text is `m:ss`. Here m = s/60, and ss = s mod 60 is always two digits between 00 and 59. Read back, the text gives s. A negative duration prints with a leading minus sign |
| Options.OptionsPage.constructor | src/options.tsx:13-17 | Initially no recordings, nothing selected, loading |
| Options.OptionsPage.LoadRecordings | src/options.tsx:19-30 | On success the list becomes the store's records reversed; on failure it is unchanged. Loading is false afterwards in both cases, and the selection is untouched |
| Options.OptionsPage.Select | src/options.tsx:82 | Clicking a card selects that recording and changes nothing else |
| Options.OptionsPage.HandleDelete | src/options.tsx:36-48 | Declined or failed: store, list, selection and loading are unchanged. Otherwise the key is removed, the selection is cleared iff it had that key, and the list is reloaded |
| RecordList.ActiveFlags | src/components/RecordList.tsx:163 | An item is active iff the selected id equals its id |
| RecordList.AtMostOneActive | src/components/RecordList.tsx:156-163 | With distinct ids at most one item is active, and with no selection none is |
| RecordList.Requested | src/components/RecordList.tsx:118-121 | Requesting a delete only remembers the record and opens the dialog; nothing is deleted |
| RecordList.OpenChanged | src/components/RecordList.tsx:123-129 | The dialog takes the new open state. The pending record is forgotten iff the dialog closes while no deletion runs; otherwise it is kept |
| RecordList.Cancelled | src/components/RecordList.tsx:146-148 | Cancelling closes the dialog. It forgets the pending record unless a deletion is in progress |
| RecordList.ConfirmBegun | src/components/RecordList.tsx:131-135 | With no pending record nothing happens and nothing is deleted. Otherwise the deletion is marked in progress and `onDelete` gets the pending record |
| RecordList.ConfirmSettled | src/components/RecordList.tsx:136-143 | The deletion is no longer in progress. On success the pending record is forgotten and the dialog closed; on failure both stay as they were |
| RecordList.ConfirmRoundTrip | src/components/RecordList.tsx:131-144 | A confirmation calls `onDelete` once with the pending record. It ends closed on success and unchanged on failure, with `isDeleting` false again |
| RecordList.CloseWhileDeleting | src/components/RecordList.tsx:123-143 | Closing the dialog during a deletion keeps the pending record; the outcome then decides whether it is cleared |
| RecordList.RecordListView.constructor | src/components/RecordList.tsx:114-116 | Initially no pending record, dialog closed, not deleting |
| RecordList.RecordListView.HandleRequestDelete | src/components/RecordList.tsx:118-121 | Makes exactly the `Requested` step |
| RecordList.RecordListView.HandleDialogOpenChange | src/components/RecordList.tsx:123-129 | Makes exactly the `OpenChanged` step |
| RecordList.RecordListView.HandleCancelDelete | src/components/RecordList.tsx:146-148 | Makes exactly the `Cancelled` step |
| RecordList.RecordListView.HandleConfirmDelete | src/components/RecordList.tsx:131-135 | Makes exactly the `ConfirmBegun` step and returns the record `onDelete` is called with |
| RecordList.RecordListView.ConfirmDeleteSettled | src/components/RecordList.tsx:136-143 | Makes exactly the `ConfirmSettled` step |
| Pipeline.SaveAll | src/background.ts:6-22 | Saving a sequence of sessions keeps the store well formed and advances the generator once per session |
| Pipeline.SessionStored | src/contents/plasmo.ts:33-47 | A whole session from idle, saved without faults, leaves the recorder idle. With no events the store is untouched. Otherwise exactly one recording is added under the next key, holding the captured events and their span, and it is listed after every older one |
| Pipeline.NewestSessionListedFirst | src/options.tsx:22-24 | After a session is saved and the list reloads, that session is listed first |
| Pipeline.SetAndSave | src/background.ts:7-20 | A `SET` replies with the new flag. When it stops a non-empty session, the background saves that session: it is added, or on a storage error the store is unchanged |

## Left out

- The capture engine (`record` from rrweb) is not modelled. It is a source of timestamped events delivered through `emit`. Calling it always yields a stop function, and it emits only between that call and the stop. The `ContentScript.Emit` method pushes whenever it is called, as the source does. The run model (`Recorder.Step`) delivers events only while capturing.
- Capture-engine failure is not modelled. The source does not handle it, so the flag cannot be reverted after a failed start.
- The session player (`src/components/RRWebPlayer.tsx`) and the popup (`src/popup.tsx`) are UI over unseen libraries and Chrome tab plumbing. They are not part of this model.
- Store.RecordingStore.SaveRecording and Store.RecordingStore.DeleteRecording: the promise settles when the request succeeds (`request.onsuccess`, `src/lib/indexeddb.ts:44-45, 85`), not when the readwrite transaction completes. A later commit abort would undo the add or delete and the key generator's step after the promise had resolved. That abort is not modelled, and neither is `{success: true}` going out for a save that is then undone (`Background.OnMessage`).
- Opening the database (`initDB`, `src/lib/indexeddb.ts:15-32`) is browser storage I/O and is not modelled. An open or request failure is the `fault` parameter.
- The key generator's upper limit is not modelled: keys are unbounded integers. The limit is 2^53 in section 2.11 of the W3C Indexed Database API.
- JavaScript numbers are modelled as unbounded integers. Timestamps and durations are whole milliseconds, so floating point does not arise.
- `chrome.runtime` message transport is not modelled. A send is a direct call of the receiving listener, and a reply is a return value.
- The content script never reads the acknowledgement of `SAVE_RECORDING`. `Pipeline.SetAndSave` discards it the same way.
- Promise interleavings and React's batched state updates are not modelled. Each handler is one atomic step. The one exception is `handleConfirmDelete`, which is split at its await into `HandleConfirmDelete` and `ConfirmDeleteSettled`, so that the dialog can change while a deletion runs.
- Toggles are not serialised against a pending save, because the code does not serialise them.
- `saveRecording` does not return the new key, and `deleteRecording` has no not-found outcome. Both are modelled as the code behaves.
- After a successful delete whose reload fails, the list still shows the deleted recording. `OptionsPage.HandleDelete` states this as the code behaves.
- The recording list's display is not modelled. This covers `formatDate` (a locale-dependent `toLocaleString`), the `@/lib/utils` helpers (not part of this model), toasts, tooltips, dialog rendering and styles.
- Import, export and download of recordings are not modelled. The list's `onDownload` is a callback, and its implementation is not part of these files.
- Options.FormatDuration: states the full text for non-negative durations only. Negative durations are modelled (`JsRemainder60`, Euclidean `/` for `Math.floor`), but only the leading minus sign is claimed for them, because a negative remainder also prints with a minus sign.
