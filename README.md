# Aasanify core, modelled in Dafny

Aasanify is a mobile app for practising Surya Namaskar (the twelve-pose sun
salutation). This project models the app's logic and proves properties of it:

- **The device store and its reconciliation with the remote database**
  (`lib/local-storage.ts`, `lib/firebase.ts`).
  - The device keeps:
    - one profile;
    - a date-keyed map of session records;
    - a last-sync time.
  - `syncWithFirebase` does the following:
    - merges the remote sessions with the local ones, and the local record wins on a shared date;
    - pushes every local record to the remote tree;
    - reconciles the two profiles last-writer-wins on `createdAt`;
    - stamps the last-sync time.
  - The remote side is a tree with `users/{uid}/profile` and `users/{uid}/sessions/{date}`, with set/get semantics.
- **The practice session** (`app/session.tsx`, `constants/poses.ts`).
  - The configuration steppers and their bounds, and the start gate that requires the audio.
  - The running session's state machine over the twelve-pose table. It covers pose → rest → pose, rounds, and completion in rounds mode and in minutes mode, plus skipping, going back, pausing and the one-second tick.
  - The clock text, the `YYYY-MM-DD` date key, and the record saved when the session ends.
- **Small persisted settings.**
  - The background-audio file and media switches (`lib/media-manager.ts`).
  - The daily reminder with its cancel-then-schedule rule (`lib/notifications.ts`).
  - The onboarding flag (`lib/onboarding-storage.ts`).

Files (one module each):

| file | module | models |
|---|---|---|
| `storage.dfy` | `Storage` | `Option`, and the lasting state of one key-value key: `Absent`, `Unreadable` (every read or JSON parse throws) or `Holds(v)` |
| `decimal.dfy` | `Decimal` | JavaScript integer ↔ text conversions used by the app: `toString`, `parseInt(s, 10)`, `padStart(2, '0')` |
| `firebase.dfy` | `Firebase` | profile and session types, the remote tree, its reads and writes, the auth error messages |
| `local_storage.dfy` | `LocalStorage` | the device store class, and `syncWithFirebase` as a method proved equal to a pure function `Sync` |
| `poses.dfy` | `Poses` | the pose table and the image lookup |
| `session.dfy` | `Session` | steppers, start gate, the `ActiveView` class and its pure transition functions, `formatTime`, `getToday`, the saved record |
| `media_manager.dfy` | `MediaManager` | media settings, the audio file's presence, download progress, deletion |
| `notifications.dfy` | `Notifications` | reminder settings and the scheduled notifications |
| `onboarding.dfy` | `Onboarding` | the onboarding flag |

Modelling choices:

- **Mutable state is a class with methods.** These are:
  - `LocalStore` (the three device keys) and `RemoteDatabase` (the tree);
  - `ActiveView` (the running session's React state) and `SessionScreen`;
  - `MediaStore`, `ReminderService` and `OnboardingStore`.
- **Each method is proved against a pure function of the old state.** The properties are lemmas about those functions.
- **Failures of SDK calls are inputs.** A failed write is a boolean; so is a one-off failed read of a key whose value the app later writes back: the local sessions and profile (written back by a sync or a local save) and the media and reminder settings (written back by the profile screen's toggles). The faults of one sync are a `SyncFaults` record. Examples:
  - a rejected remote read aborts the sync;
  - a rejected push aborts it after the other pushes have landed;
  - a swallowed local write leaves the key as it was;
  - a swallowed failed read of the sessions map makes the next write replace it, losing the dates it held (`SaveSessionAfterFailedReadLosesDates`, `SyncAfterFailedReadLosesLocalOnly`);
  - a failed load of the settings on the profile screen makes one toggle store the defaults for the other fields (`ToggleAfterFailedReadEnablesBgAudio`, `EnableAfterFailedReadResetsTime`).
- **Clocks, the platform and the calendar are parameters.** These are `Date.now()`, `Platform.OS`, and the calendar date as year, month index and day.
- **`createdAt` is an `Instant`.** It is either a time in milliseconds or `InvalidDate`. `new Date(a) > new Date(b)` is false whenever either date is invalid, so such a comparison goes to the remote profile.

Facts about the code that shape the model:

- `syncWithFirebase` takes `isOnline` as a plain flag and returns at once when it is false (`SyncOfflineChangesNothing`).
- `setLastSyncTime` sits inside the `try`, so the marker moves only when no remote call rejected (`SyncStampsOnlyWhenCompleted`).
- When only one side holds a profile, neither profile changes (`SyncReconcilesProfile`).
- The session screen writes a finished record only to the remote database (`SessionScreen.HandleSave`).

## Model

| member | source | states |
|---|---|---|
| Decimal.Show | lib/local-storage.ts:63 | `String(n)` is non-empty and starts with a minus sign exactly for negative `n`; `ParseIntShow` proves it reads back as `n` |
| Decimal.ShowNat | lib/local-storage.ts:63 | the rendering of a natural number is a non-empty run of decimal digits, one digit exactly below 10, with no leading zero except for 0 itself |
| Decimal.PadStart2 | app/session.tsx:55 | text of length ≥ 2 is kept; shorter text is prefixed with zeros up to length 2 |
| Decimal.TwoDigits | app/session.tsx:55 | for 0..99 the padded rendering has two digits and reads back as the number |
| Decimal.ParseInt | lib/local-storage.ts:55 | `parseInt(s, 10)` is `NaN` exactly when no digit follows the leading white space and optional sign |
| Decimal.ParseIntShow | lib/local-storage.ts:55-63 | `parseInt(time.toString(), 10)` gives back `time` for every integer |
| Decimal.ParseIntPrefix | lib/local-storage.ts:55 | `parseInt` reads `n` back from its text preceded by any JavaScript white space and followed by nothing or by a non-digit |
| Firebase.GetAfterSet | lib/firebase.ts:55-71 | a read after `set` sees the written node at its path and the previous node at every other path |
| Firebase.GetUserProfile | lib/firebase.ts:59-62 | the profile is present exactly when the profile path holds a node, and then it is that node's value |
| Firebase.GetAllSessions | lib/firebase.ts:68-71 | a date is in the result exactly when its session path holds a node, with that node's record |
| Firebase.RemoteDatabase.SaveUserProfile | lib/firebase.ts:55-57 | the profile path now reads back the profile; no user's sessions change |
| Firebase.RemoteDatabase.SaveSession | lib/firebase.ts:64-66 | the user's collection gains or fully replaces that date; other users and all profiles are unchanged |
| Firebase.SaveSessionFrame | lib/firebase.ts:64-66 | `saveSession` writes exactly one record, in full, and nothing else |
| Firebase.SaveThenGetProfile | lib/firebase.ts:55-62 | `saveUserProfile` then `getUserProfile` returns the saved profile; sessions are untouched |
| Firebase.EmptyDatabaseReads | lib/firebase.ts:59-71 | with nothing stored, the profile reads as `null` and the sessions as `{}` |
| Firebase.GetFirebaseErrorMessage | lib/firebase.ts:73-85 | the generic message is returned exactly for codes outside the eight known ones; never empty |
| Firebase.MessageIdentifiesCode | lib/firebase.ts:74-82 | the message given for a known code determines the code it was given for |
| Firebase.KnownErrorMessagesDistinct | lib/firebase.ts:74-82 | two different known codes never map to the same message |
| LocalStorage.GetLocalProfile | lib/local-storage.ts:16-23 | the stored profile, `null` when the key is absent or unreadable |
| LocalStorage.GetLocalSessions | lib/local-storage.ts:33-40 | the stored map, `{}` when the key is absent or unreadable |
| LocalStorage.ReadLocalSessions | lib/local-storage.ts:33-40 | one call of `getLocalSessions`: `{}` when that call's read fails, otherwise the stored map (`{}` when absent or unreadable) |
| LocalStorage.ReadLocalProfile | lib/local-storage.ts:16-23 | one call of `getLocalProfile`: `null` when that call's read fails, otherwise the stored profile |
| LocalStorage.GetLastSyncTime | lib/local-storage.ts:52-59 | `0` when the key is absent, unreadable or empty; otherwise `parseInt` of the stored text |
| LocalStorage.LastSyncRoundTrip | lib/local-storage.ts:52-66 | `setLastSyncTime(t)` then `getLastSyncTime()` returns `t` |
| LocalStorage.SaveSessionLocallyEffect | lib/local-storage.ts:42-50 | the date is set to the record; after a successful read every other date keeps its record; when the key is unreadable or the read fails, the map is replaced by that single date |
| LocalStorage.SaveSessionAfterFailedReadLosesDates | lib/local-storage.ts:33-50 | a one-off failed read inside `saveSessionLocally` over a stored map drops every other date that map held |
| LocalStorage.LocalStore.SaveProfileLocally | lib/local-storage.ts:8-14 | the profile key holds the profile, or nothing changes when the write fails |
| LocalStorage.LocalStore.SaveSessionsLocally | lib/local-storage.ts:25-31 | the sessions key holds the map, or nothing changes when the write fails |
| LocalStorage.LocalStore.SaveSessionLocally | lib/local-storage.ts:42-50 | read-modify-write of the map, `{}` when the read fails: afterwards the date holds the record; other keys are unchanged |
| LocalStorage.LocalStore.SetLastSyncTime | lib/local-storage.ts:61-67 | the key holds `time.toString()` and reads back as `time`, or nothing changes when the write fails |
| LocalStorage.MergeSessions | lib/local-storage.ts:80 | the merged dates are the union of both sides; local records win on shared dates, remote-only dates keep the remote record |
| LocalStorage.MergeIdempotent | lib/local-storage.ts:80 | merging the merged map with the same remote map again changes nothing |
| LocalStorage.NewerProfile | lib/local-storage.ts:89-92 | the kept profile is one of the two, and it is the local one over a different remote one only when the local `createdAt` is strictly later; `NewerProfileIsLastWriter` gives the rest |
| LocalStorage.NewerProfileIsLastWriter | lib/local-storage.ts:89-92 | the winner is one of the two profiles; with distinct valid dates it is the later one, whichever side it is on; ties and invalid dates go to the remote |
| LocalStorage.PushSessions | lib/local-storage.ts:82-87 | the pushes touch only `uid`'s node and never its profile; `PushedSessions` and `PushOneMore` state what the collection becomes |
| LocalStorage.PushOneMore | lib/local-storage.ts:84-86 | one more `saveSession` of a local record extends the set of pushed dates by that date |
| LocalStorage.PushedSessions | lib/local-storage.ts:84-86 | after the pushes, the user's remote collection is the old one overridden by the pushed records; other users and all profiles are unchanged |
| LocalStorage.PushLocalSessions | lib/local-storage.ts:82-87 | every local record whose push is not rejected lands on the remote; the result reports whether any push was rejected |
| LocalStorage.Sync | lib/local-storage.ts:69-101 | the outcome is offline exactly when `isOnline` is false, and the last-sync key changes only on a completed sync and then to `now`; the `Sync…` lemmas below give the rest |
| LocalStorage.SyncWithFirebase | lib/local-storage.ts:69-101 | both stores and the outcome are exactly those of the function `Sync` on the old stores |
| LocalStorage.SyncOfflineChangesNothing | lib/local-storage.ts:70 | offline, neither store changes |
| LocalStorage.SyncUnreachableChangesNothing | lib/local-storage.ts:72-78 | when a remote read rejects, neither store changes and the error is swallowed |
| LocalStorage.SyncMergesSessionsLocally | lib/local-storage.ts:80-83 | the local sessions become remote ∪ local as this call read it, with the local record winning |
| LocalStorage.SyncPushesLocalSessions | lib/local-storage.ts:84-86 | each local record this call read (and whose push was not rejected) is on the remote under its own date; remote-only dates and other users are untouched |
| LocalStorage.SyncReconcilesProfile | lib/local-storage.ts:89-95 | when the remote reads succeed and no push rejects: with both profiles present (the local one as this call read it), the last-writer winner lands on the device when the local profile write succeeds and on the remote when `saveUserProfile` resolves; with either missing, neither profile changes |
| LocalStorage.SyncStampsOnlyWhenCompleted | lib/local-storage.ts:97-100 | the last-sync key changes only on a completed sync, and then reads back as `now`; the sync completes exactly when no remote call rejected |
| LocalStorage.SyncConverges | lib/local-storage.ts:80-95 | after a sync that completed and whose local sessions and profile writes both succeeded, the device and the remote hold the same sessions, and the same profile when both had one |
| LocalStorage.SyncAfterFailedReadLosesLocalOnly | lib/local-storage.ts:72-83 | when this sync's read of the local sessions fails, the device map is overwritten by the remote collection: local-only dates are lost on the device and were not pushed |
| LocalStorage.SyncOnConvergedStores | lib/local-storage.ts:69-101 | a fault-free sync of stores that already agree completes and changes neither store's sessions or profile |
| LocalStorage.SyncTwiceIsIdempotent | lib/local-storage.ts:69-101 | a second fault-free sync completes and changes neither the remote tree nor the local sessions or profile |
| Poses.GetPoseImage | constants/poses.ts:23-35 | an image is defined exactly for indices 1..7 |
| Poses.PoseImagesDistinct | constants/poses.ts:23-31 | different indices give different images |
| Poses.PoseTableWellFormed | constants/poses.ts:8-35 | 12 poses; the pose at index i has step i+1 and an image index in 1..7 with an image; the last pose is the first pose with step 12 |
| Poses.PoseSequenceMirrors | constants/poses.ts:9-20 | steps k and 13−k share the image for k in 1..5 and the whole pose for k in 1..4 |
| Session.StepperPress | app/session.tsx:58-88 | a press moves the value by at most one and keeps a value within its bounds within them; `StepperPressBounded` says exactly when it moves |
| Session.StepperPressBounded | app/session.tsx:58-88 | a press keeps the value within [min, max] and moves it by one exactly when the bound allows it |
| Session.ConfigStaysValid | app/session.tsx:90-96 | the defaults 3/10/15/5 lie within the bounds 1–12, 5–60, 5–60 and 2–20, and no sequence of presses on the configuration screen leaves them |
| Session.HandleStartPress | app/session.tsx:108-119 | the session starts exactly when the audio is available, with the configuration as shown |
| Session.CompletedSteps | app/session.tsx:427-428 | the count of finished poses is non-negative, ends in the current step, and in rounds mode stays below `rounds * 12` |
| Session.StepKeepsInv | app/session.tsx:332-419 | every event keeps the step in 0..11, the round at least 1 and in rounds mode at most `rounds`, and the countdown positive |
| Session.RunKeepsInv | app/session.tsx:249-254 | the initial state satisfies the invariant and every sequence of events keeps it |
| Session.CompletionExactly | app/session.tsx:332-344 | `onComplete` fires exactly when the 12th pose ends and either the last round was being done (rounds mode) or `minutes*60` seconds have elapsed (minutes mode); it reports the current round and the elapsed time |
| Session.NextPoseState | app/session.tsx:332-355 | leaving a pose either enters a rest of `restSeconds` or calls `onComplete` with the current round and elapsed time, and completion only after the twelfth pose; the round stays or grows by one back to step 0; the clock is untouched |
| Session.RestCompleteState | app/session.tsx:357-362 | ending a rest shows the same step of the same round for a full `holdSeconds`; the clock is untouched |
| Session.GoNextState | app/session.tsx:403-409 | skipping during a rest shows the same step, active; skipping never moves the clock or the pause flag |
| Session.GoPrevState | app/session.tsx:411-419 | going back lowers the step by one above step 0 and keeps it at step 0; the round and the clock are untouched |
| Session.TickState | app/session.tsx:364-391 | a paused tick changes nothing; an unpaused tick adds exactly one second to the elapsed time |
| Session.PoseThenRest | app/session.tsx:345-360 | a pose that does not finish the session is followed by a rest of `restSeconds` before the next step; ending the rest shows that step for `holdSeconds` |
| Session.GoPrevBack | app/session.tsx:411-419 | the step becomes `max(step − 1, 0)` and stays in 0..11 with the round kept; a real step back is active with a full hold time; at step 0 nothing changes |
| Session.TicksCountDown | app/session.tsx:364-386 | while the countdown stays above 1, each unpaused second lowers it by one and adds one to the elapsed time |
| Session.PoseLastsHoldSeconds | app/session.tsx:364-386 | a pose with a full countdown ends on exactly its `holdSeconds`-th second |
| Session.RestLastsRestSeconds | app/session.tsx:364-391 | a rest with a full countdown ends on exactly its `restSeconds`-th second, at the same step with a full hold time |
| Session.SkipsWithinRound | app/session.tsx:403-409 | from step k, 2·(11−k) skips reach step 12's pose in the same round |
| Session.SkipOutOfLastRound | app/session.tsx:336-339 | in rounds mode, leaving the twelfth pose of the last round calls `onComplete` with the configured rounds |
| Session.SkipIntoNextRound | app/session.tsx:345-360 | in rounds mode, leaving the twelfth pose of an earlier round leads through a rest to the first pose of the next round |
| Session.SkipsToCompletion | app/session.tsx:332-354 | in rounds mode, skipping from the first pose of round r completes with exactly `rounds` after 24·(rounds−r)+23 presses |
| Session.SkippedSessionCompletes | app/session.tsx:403-409 | a rounds-mode session skipped through from the start completes with `rounds` rounds after 24·rounds−1 presses |
| Session.ActiveView.constructor | app/session.tsx:249-254 | active, step 0, round 1, a full hold time, nothing elapsed, not paused |
| Session.ActiveView.CurrentPose | app/session.tsx:316 | the current pose is defined, has step `currentStep + 1`, and has an image |
| Session.ActiveView.MoveToNextPose | app/session.tsx:332-355 | the new state is `NextPoseState` of the old one, and the invariant holds |
| Session.ActiveView.HandleRestComplete | app/session.tsx:357-362 | back to active with a full hold time, step unchanged |
| Session.ActiveView.GoNext | app/session.tsx:403-409 | ends the rest early, or leaves the pose early |
| Session.ActiveView.GoPrev | app/session.tsx:411-419 | the new state is `GoPrevState` of the old one |
| Session.ActiveView.Tick | app/session.tsx:364-391 | paused: no change; otherwise the countdown drops or the pending transition fires, and the elapsed time grows by one |
| Session.ActiveView.TogglePause | app/session.tsx:478 | only the pause flag flips |
| Session.FormatTime | app/session.tsx:421-425 | the clock text has at least four characters and a colon; `FormatTimeRoundTrip` proves it reads back as the seconds |
| Session.FormatTimeRoundTrip | app/session.tsx:421-425 | the clock text is minutes, a colon and two-digit seconds below 60, reading back as the total seconds |
| Session.GetToday | app/session.tsx:53-56 | the key has at least seven characters; `DateKeyRoundTrip` proves its fields read back as year, month and day |
| Session.DateKeyRoundTrip | app/session.tsx:53-56 | the key is year, month 1..12 and day, joined by dashes with month and day in two digits, and reads back as its parts; four-digit years give ten characters |
| Session.DateKeysDistinct | app/session.tsx:53-56 | different dates never share a key |
| Session.CeilMinutes | app/session.tsx:560 | `Math.ceil(elapsed / 60)`: the least whole number of minutes covering the elapsed seconds |
| Session.SessionRecord | app/session.tsx:558-563 | completed, the rounds done, type "Surya Namaskar", and the duration in minutes rounded up |
| Session.SessionScreen.constructor | app/session.tsx:537-541 | the screen opens on the configuration with no session data |
| Session.SessionScreen.HandleStart | app/session.tsx:543-546 | stores the configuration and switches to the running session |
| Session.SessionScreen.HandleComplete | app/session.tsx:548-553 | stores the rounds and elapsed time and switches to the completion view |
| Session.SessionScreen.HandleSave | app/session.tsx:555-570 | with a user and completion data, the record is written under today's key; without either, or when the write rejects, the remote is unchanged |
| MediaManager.MergeDefaults | lib/media-manager.ts:80 | a stored field overrides its default; a missing field keeps it |
| MediaManager.ReadSettings | lib/media-manager.ts:77-83 | the defaults (both switches on) when nothing is stored or the read fails; otherwise the merge |
| MediaManager.SettingsRoundTrip | lib/media-manager.ts:77-91 | saved settings read back unchanged; an empty stored object reads as the defaults |
| MediaManager.ReadSettingsOnce | lib/media-manager.ts:77-83 | one call of `getMediaSettings`: the defaults when that call's read rejects, otherwise what the key reads as |
| MediaManager.ToggleTtsSaves | lib/media-manager.ts:77-91 | on the profile screen, after the screen loads the settings and saves one speech toggle, speech is flipped and background audio kept when the load read the key, and the stored pair is (off, on) when that load's read rejected |
| MediaManager.ToggleAfterFailedReadEnablesBgAudio | lib/media-manager.ts:77-91 | on the profile screen, a stored `bgAudioEnabled: false` reads as true after one speech toggle saved over a failed load |
| MediaManager.Reports | lib/media-manager.ts:31-36 | no more reports than events, each with a positive expected total |
| MediaManager.ReportsOne | lib/media-manager.ts:31-36 | one event is reported, with its own figures, exactly when its expected total is positive |
| MediaManager.ReportsAppend | lib/media-manager.ts:31-36 | the reports of two runs of events are the reports of the first run followed by those of the second; with `ReportsOne` this gives each event's report in event order |
| MediaManager.ReportsSkipUnknown | lib/media-manager.ts:31-36 | an event with an unknown total followed by a known one yields exactly the known one's report |
| MediaManager.ReportsAllKnown | lib/media-manager.ts:31-36 | with every expected total known, every event is reported, in order, with its own figures |
| MediaManager.ReportsNoneKnown | lib/media-manager.ts:31-36 | with no expected total known, nothing is reported |
| MediaManager.MediaStore.AudioPath | lib/media-manager.ts:8-10 | the documents directory followed by `sunsalutation.mp3` |
| MediaManager.MediaStore.IsAudioDownloaded | lib/media-manager.ts:12-19 | true exactly when the file info call succeeds and the file exists |
| MediaManager.MediaStore.GetAudioUri | lib/media-manager.ts:21-25 | non-null exactly when the file is there, and then the fixed path |
| MediaManager.MediaStore.DownloadAudio | lib/media-manager.ts:27-51 | reports exactly `Reports(events)`; succeeds exactly when the download saved the file with a non-empty uri |
| MediaManager.MediaStore.DeleteAudio | lib/media-manager.ts:53-65 | succeeds whether or not the file existed, unless a call fails; after success the file is absent |
| MediaManager.MediaStore.GetMediaSettings | lib/media-manager.ts:77-83 | the stored settings merged over the defaults |
| MediaManager.MediaStore.SaveMediaSettings | lib/media-manager.ts:85-91 | the settings are stored and read back, or nothing changes when the write fails |
| Notifications.MergeDefaults | lib/notifications.ts:30 | a stored field overrides its default; a missing field keeps it |
| Notifications.ReadSettings | lib/notifications.ts:27-33 | disabled at 07:00 when nothing is stored or the read fails; otherwise the merge |
| Notifications.SettingsRoundTrip | lib/notifications.ts:27-38 | saved settings read back unchanged |
| Notifications.ReadSettingsOnce | lib/notifications.ts:27-33 | one call of `getReminderSettings`: disabled at 07:00 when that call's read rejects, otherwise what the key reads as |
| Notifications.ToggleReminderSaves | lib/notifications.ts:27-42 | on the profile screen, after the screen loads the reminder and saves one toggle, the switch flips and the time is kept when the load read the key, and the stored reminder is on at 07:00 when that load's read rejected |
| Notifications.EnableAfterFailedReadResetsTime | lib/notifications.ts:27-42 | on the profile screen, a reminder stored off at 09:30 is stored on at 07:00 after one toggle saved over a failed load |
| Notifications.Schedule | lib/notifications.ts:44-67 | at most one reminder; exactly one when enabled and scheduling succeeded, at the set hour and minute |
| Notifications.ReminderService.GetReminderSettings | lib/notifications.ts:27-33 | the stored settings merged over the defaults |
| Notifications.ReminderService.ScheduleReminder | lib/notifications.ts:44-67 | no-op on web; otherwise cancel all, then at most the one daily reminder; a rejected cancel escapes with nothing changed |
| Notifications.ReminderService.SaveReminderSettings | lib/notifications.ts:35-42 | stores the settings, then reschedules with them; errors are swallowed |
| Notifications.ReminderService.InitializeReminders | lib/notifications.ts:69-76 | schedules only on a device and only when the stored settings are enabled |
| Onboarding.MarkComplete | lib/onboarding-storage.ts:14-20 | after a successful write the flag reads as complete; a failed write changes nothing |
| Onboarding.MarkCompleteIdempotent | lib/onboarding-storage.ts:14-20 | marking twice equals marking once, and never undoes completion |
| Onboarding.OnboardingStore.IsOnboardingComplete | lib/onboarding-storage.ts:5-12 | true exactly when the stored value is the string `'true'` |
| Onboarding.OnboardingStore.SetOnboardingComplete | lib/onboarding-storage.ts:14-20 | the key becomes `'true'`, or stays as it was when the write fails |

## Left out

- Rendering, styles, animation, navigation (`router.back()`), speech, haptics and audio playback in `app/session.tsx`: presentation and foreign SDK side effects.
- Progress percentages, the timer ring and the download ratio: floating point. The download progress is kept as the pair (written, expected).
- JSON serialisation: a stored value round-trips faithfully. A value that parses but has the wrong shape (`"null"`, a number, wrongly typed fields) is not modelled. Only "absent", "unreadable" and "holds a well-formed object" are modelled.
- Decimal.Show, Decimal.ParseInt: JavaScript numbers are doubles. Above 2^53, `String(n)` prints the shortest digits that round-trip followed by zeros (exponent notation from 10^21), and `parseInt` rounds to the nearest double; the model's integers are exact. The app's values (`Date.now()` in milliseconds, seconds, counts) stay far below 2^53.
- One-off read failures of the last-sync and onboarding keys: they are modelled as `Unreadable`, which gives the same default for that read; nothing in the app writes back what those reads returned.
- MediaManager.MediaStore.SaveMediaSettings, Notifications.ReminderService.SaveReminderSettings: these store the settings they are given. The profile screen (`app/(tabs)/profile.tsx`) gives them settings derived from its last load, so after a one-off failed load a single toggle replaces the other stored fields with their defaults (`ToggleTtsSaves`, `ToggleReminderSaves`). The rest of the profile screen, including its hour and minute steppers, is not modelled.
- `Promise.all` in `syncWithFirebase`: the reads and writes are taken one after another. They touch distinct keys.
- Parsing ISO `createdAt` text: `createdAt` is the instant the text denotes, or an invalid date.
- `lib/auth-context.tsx`, `lib/network-context.tsx`, `lib/permissions.ts` and the Firebase initialisation: SDK wrappers. The signed-in user and `isOnline` are parameters.
- Callers of `lib/local-storage.ts`: none of the app screens in this model import it. The tabs and the session screen call `getAllSessions` and `saveSession` of `lib/firebase.ts` directly. `syncWithFirebase` and the local keys are modelled as the library provides them, not as something the app runs.
- The configuration screen's initial audio check (`isAudioDownloaded` in an effect): the result is the `audioAvailable` parameter of `HandleStartPress`.
- Session.ActiveView.Tick: one tick is one atomic step, and the countdown after a transition is the value the transition sets (`restSeconds` or `holdSeconds`). The interval's state updater also returns 0 on that path, and the value React ends up with depends on how it orders the two updates. That interleaving is not modelled.
- Session.ActiveView.MoveToNextPose: on completion the model keeps the countdown positive. In the code the view is unmounted at that point, so the value is never shown.
- Session.Run: events stop once `onComplete` has been called, because the screen replaces the running view.
- Session.SkipsToCompletion: shows completion after the stated number of presses, but not that no earlier press completes.
- MediaManager.MediaStore.DownloadAudio: on a saved download the file is present; a partial file left by a failed download is not modelled.
- Notifications.ReminderService.ScheduleReminder: the notification handler registration (`setNotificationHandler`) and the platform's own delivery are not modelled.
