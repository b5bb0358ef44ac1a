# PebbleMyTracks bridge, modelled in Dafny

This project models the core of `PebbleSportsService`, the Android service
that bridges the MyTracks recording service and a Pebble watch. On every
tick of its updater the service does three things:

- it reconciles the state MyTracks is in (NOTHING, RECORDING, PAUSED) with
  the state the watch asked for, through one pending command;
- it refreshes a telemetry snapshot. The snapshot's speed is gated by a
  10-second window, and its odometer is primed from all tracks;
- it sends the snapshot to the watch in one of two shapes. The first is the
  custom multi-slot app: `;`-joined values, plus labels that are resent a
  counted number of times. The second is the native sports app.

Modules, in dependency order:

- `Wrappers` (wrappers.dfy): `Option`, for collaborator calls that may return null.
- `Reconciler` (reconciler.dfy): the states and commands, and the command table
  of `processCommand` (`Intake`). It also holds the state observed from the
  tracking service's flags (`Observe`), the guarded action switch of
  `updateMyTracks` (`Guard`) and the terminal check (`IsTerminal`). An
  independent transition table (`Issues`, `Sources`, `Target`) is proved to
  agree with the guarded switch.
- `Text` (text.dfy): decimal digits, Java's `%02d` (`Pad2`), and `Join`/`Split`
  on a separator. Each comes with a parser that reads it back (for `Pad2`,
  after the sign of a negative number).
- `Telemetry` (telemetry.dfy): locations, trip statistics and the snapshot. It
  has the speed gate (`GatedSpeed`), the odometer sum (`SumDistance`), and
  the effects of `initSportsData` (`Primed`) and `updateSportsData`
  (`Refresh`) on the snapshot.
- `Formatting` (formatting.dfy): the slot types, Java's truncating `/` and `%`,
  and the duration clock fields. It also has the precision tiers of
  distance, elevation and sports distance, and the per-slot rendering.
- `Wearable` (wearable.dfy): the keyed messages of both shapes, and the
  label-resend counter (`Dispatch`, `CounterAfter`).
- `Service` (service.dfy): the classes. `TrackingService` stands for MyTracks:
  two flags plus a log of the calls made on it. `PebbleSportsService` has
  the source's fields (`currentState`, `desiredState`, `currentCommand`,
  `sendConfig`, the updater's `running` flag, the `sportsData` snapshot, the
  configuration) and an `outbox` of the messages handed to the watch SDK.
  Its methods update these fields in place. The slot loop of `updateMyApp`
  is a method of its own, `SlotStrings`, which `UpdateMyApp` calls before
  dispatching.

Behaviour of the code that may surprise a reader:

- The pending command is cleared at the end of every tick in which the
  tracking service is bound, whether or not its guard matched. It is not
  held for a retry. While the service is unbound the tick does nothing, so
  the command stays pending.
- The label counter is set to 10 when the updater starts and to 5 on a
  preference change.
- A converted distance of exactly 100 still gets one decimal, because the
  test is `> 100`.
- The sports-app dispatch sends without checking that the watch is
  connected. It carries no state bytes and is addressed to `appUUID`.
  `processCommand` and the custom dispatch always address
  `alternativeAppUUID`.
- The speed gate compares a fix's time with the time stored by the last
  refresh that had a fix. A tick that sees a track but no fix leaves that
  time as it was, and before any fix it is 0. When no new fix arrives, the
  same fix is compared with itself and keeps its speed on every later tick
  (`Telemetry.RefreshSameFixTwice`).
- Durations use Java's truncating division on possibly negative
  milliseconds (`Formatting.JavaDiv`, `Formatting.JavaRem`).

## Model

| member | source | states |
|---|---|---|
| `Reconciler.Intake` | src/org/meulenhoff/pebblemytracks/PebbleSportsService.java:264-293 | A user command code (START, STOP, PAUSE, RESUME) becomes the pending command, together with a desired state it agrees with. Any other code either clears the pending command or changes nothing. |
| `Reconciler.Observe` | src/org/meulenhoff/pebblemytracks/PebbleSportsService.java:381-392 | The observed state is PAUSED exactly when recording and paused, RECORDING exactly when recording and not paused, and NOTHING exactly when not recording. |
| `Reconciler.Guard` | src/org/meulenhoff/pebblemytracks/PebbleSportsService.java:394-421 | An action fires only if it is the one the reference table says the command issues, the current state is one of that action's legal sources, and the desired state is its target. |
| `Reconciler.IsTerminal` | src/org/meulenhoff/pebblemytracks/PebbleSportsService.java:426-433 | In a terminal steady state, where the updater stops itself, current equals desired and no pending command fires. |
| `Reconciler.IntakeTable` | src/org/meulenhoff/pebblemytracks/PebbleSportsService.java:264-293 | START and RESUME set desired RECORDING, STOP sets NOTHING, PAUSE sets PAUSED. Each of these becomes the pending command, so the desired state is the target of the action it issues. The MyTracks started/stopped events set RECORDING/NOTHING and clear the command. Every other code changes nothing. |
| `Reconciler.IntakeIdempotent` | src/org/meulenhoff/pebblemytracks/PebbleSportsService.java:264-293 | Receiving a code twice has the same effect as receiving it once. |
| `Reconciler.IntakeKeepsAgreement` | src/org/meulenhoff/pebblemytracks/PebbleSportsService.java:264-293 | Every code keeps a pending command in agreement with the desired state: a command is pending only together with the state it is meant to reach. |
| `Reconciler.GuardMatchesTable` | src/org/meulenhoff/pebblemytracks/PebbleSportsService.java:394-421 | The converse of the contract of `Guard`: the switch fires whenever the command issues an action, the current state is a legal source of it and the desired state is its target. START needs (NOTHING, RECORDING); STOP needs (RECORDING or PAUSED, NOTHING); PAUSE needs (RECORDING, PAUSED); RESUME needs (PAUSED, RECORDING). |
| `Reconciler.GuardMovesTowardDesired` | src/org/meulenhoff/pebblemytracks/PebbleSportsService.java:394-421 | An action fires only when the current and desired states differ, and it leads to the desired state. |
| `Reconciler.GuardUnderAgreement` | src/org/meulenhoff/pebblemytracks/PebbleSportsService.java:394-421 | When the pending command agrees with the desired state, whether it fires depends only on the current state. |
| `Text.Digits` | src/org/meulenhoff/pebblemytracks/PebbleSportsService.java:529-531 | The decimal text of a number is non-empty and all digits; it has one digit below 10 and two digits from 10 to 99. |
| `Text.ParseDigits` | src/org/meulenhoff/pebblemytracks/PebbleSportsService.java:529-531 | Reading the decimal text of n back gives n. |
| `Text.Pad2` | src/org/meulenhoff/pebblemytracks/PebbleSportsService.java:529-531 | `%02d` is at least two characters wide and exactly two for 0..99. A non-negative number gives only digits; a negative one gives a '-' followed by digits. |
| `Text.Pad2RoundTrip` | src/org/meulenhoff/pebblemytracks/PebbleSportsService.java:529-531 | Reading the `%02d` text of a non-negative number back gives the number, leading zero included. |
| `Text.Pad2Negative` | src/org/meulenhoff/pebblemytracks/PebbleSportsService.java:529-531 | The `%02d` text of a negative number is a '-' followed by text that reads back as the number's magnitude. |
| `Text.SplitJoin` | src/org/meulenhoff/pebblemytracks/PebbleSportsService.java:498-501 | Splitting the join of separator-free pieces gives back the same pieces in the same order. |
| `Telemetry.GatedSpeed` | src/org/meulenhoff/pebblemytracks/PebbleSportsService.java:476-480 | The speed is either 0 or the fix's speed. It is 0 when the fix has no speed or comes 10 s or more after the stored time of the last fix a refresh saw. It is the fix's speed when the fix has a speed and comes less than 10 s after that time. |
| `Telemetry.SumDistance` | src/org/meulenhoff/pebblemytracks/PebbleSportsService.java:360-365 | The odometer sum over tracks is never negative when no track distance is negative. |
| `Telemetry.Primed` | src/org/meulenhoff/pebblemytracks/PebbleSportsService.java:352-370 | Priming changes at most the odometer and the fake start time. With a last track, the fake start time becomes that track's start time. Without one, nothing changes, because the source dereferences it first. |
| `Telemetry.Refresh` | src/org/meulenhoff/pebblemytracks/PebbleSportsService.java:441-488 | A refresh never changes the odometer or the fake start time. With a last track and a fix it stores the fix's time. Without a last track nothing changes. |
| `Telemetry.SumDistanceAppend` | src/org/meulenhoff/pebblemytracks/PebbleSportsService.java:360-365 | The odometer sum over two runs of tracks is the sum of their totals. |
| `Telemetry.SumDistanceMonotone` | src/org/meulenhoff/pebblemytracks/PebbleSportsService.java:360-365 | With no negative track distance, the running odometer never decreases as the loop proceeds. |
| `Telemetry.PrimedOdometer` | src/org/meulenhoff/pebblemytracks/PebbleSportsService.java:352-370 | With a last track and at least one track, priming sets the odometer to the total distance of all tracks. Otherwise the odometer is unchanged. |
| `Telemetry.RefreshGatesSpeed` | src/org/meulenhoff/pebblemytracks/PebbleSportsService.java:476-480 | A refresh with a fix reports the speed gated against the stored time of the last fix a refresh saw. A fix 10 s or more after that time shows 0. |
| `Telemetry.RefreshSameFixTwice` | src/org/meulenhoff/pebblemytracks/PebbleSportsService.java:476-480 | Refreshing twice on the same fix leaves that fix's own speed, if it has one, because the fix is then compared with itself. |
| `Telemetry.RefreshMissingData` | src/org/meulenhoff/pebblemytracks/PebbleSportsService.java:443-459 | With a last track but no fix, at most the distance to start changes, and only to 0. The stored fix time stays as it was. |
| `Formatting.JavaDiv` | src/org/meulenhoff/pebblemytracks/PebbleSportsService.java:527-531 | Used by `Seconds` (line 527) and the clock fields. Java's long division truncates toward zero: for a non-negative dividend the quotient times the divisor is at most the dividend and within one divisor of it; for a negative dividend it is at least the dividend and within one divisor of it. |
| `Formatting.JavaRem` | src/org/meulenhoff/pebblemytracks/PebbleSportsService.java:529-531 | Java's remainder: the dividend is the quotient times the divisor plus the remainder, and the remainder takes the dividend's sign. |
| `Formatting.CustomClock` | src/org/meulenhoff/pebblemytracks/PebbleSportsService.java:525-553 | For s the whole seconds, past 3599 s the custom clock shows whole hours (at least 1) and the minutes in [0,59] of the rest. Otherwise it shows minutes and seconds that add up to s: both in [0,59] for a non-negative duration, both at most 0 for a negative one. |
| `Formatting.SportsClock` | src/org/meulenhoff/pebblemytracks/PebbleSportsService.java:606-612 | Past 3599 s the sports clock shows hours, minutes and seconds; otherwise minutes and seconds. The fields add up to the whole seconds, and minutes and seconds are in [0,59] for a non-negative duration. |
| `Formatting.ClockTextRoundTrip` | src/org/meulenhoff/pebblemytracks/PebbleSportsService.java:529-531 | For non-negative fields, a clock text splits on ':' into one piece per field, and each piece reads back as its field. |
| `Formatting.ClockBoundary` | src/org/meulenhoff/pebblemytracks/PebbleSportsService.java:528-531 | 3599000 ms shows as 59:59 in minutes:seconds. 3600000 ms shows as 1 hour 0 minutes (custom) and 1:0:0 (sports). |
| `Formatting.ClockExample` | src/org/meulenhoff/pebblemytracks/PebbleSportsService.java:545-553 | A total time of 5000000 ms shows as "01:23". |
| `Formatting.DistanceTiers` | src/org/meulenhoff/pebblemytracks/PebbleSportsService.java:509-517 | `DistancePlaces`: a converted distance gets 0 decimals exactly when it is above 100 and 1 decimal exactly when it is at most 100, so 100 itself still gets one. A larger distance never gets more decimals. The distance to start (lines 558-566) uses the same tiers. |
| `Formatting.SportsDistanceTiers` | src/org/meulenhoff/pebblemytracks/PebbleSportsService.java:628-634 | `SportsDistancePlaces`: the sports distance gets 0 decimals exactly above 100, 2 decimals exactly at or below 10, and never more decimals for a larger value. |
| `Formatting.ElevationScale` | src/org/meulenhoff/pebblemytracks/PebbleSportsService.java:568-577 | `ElevationRendering`: the elevation gets 2 decimals exactly when it is above 1000, and is then shown in thousands: the shown value times 1000 is the elevation and exceeds 1. Otherwise it is shown as is with 0 decimals. |
| `Formatting.SlotKinds` | src/org/meulenhoff/pebblemytracks/PebbleSportsService.java:505-581 | The per-slot switch `SlotRendering` gives the placeholder exactly for NOTHING and a two-field clock exactly for the three durations. The three speeds get one decimal and the two distances at most one. |
| `Formatting.SlotExamples` | src/org/meulenhoff/pebblemytracks/PebbleSportsService.java:505-557 | 5.0 m/s shows as 18.0 km/h with one decimal. 150000 m shows as 150 km with no decimals. NOTHING shows as "-". |
| `Formatting.CustomTokens` | src/org/meulenhoff/pebblemytracks/PebbleSportsService.java:495-582 | The values and names strings each split on ';' into exactly one token per slot, in slot order, when the renderer's texts are free of ';'. |
| `Wearable.StatePayload` | src/org/meulenhoff/pebblemytracks/PebbleSportsService.java:299-303 | The acknowledgement has exactly the current-state and desired-state keys (`MSG_SET_CURRENTSTATE`, `MSG_SET_DESIREDSTATE`). Its two values are equal exactly when the two states are equal. |
| `Wearable.CustomPayload` | src/org/meulenhoff/pebblemytracks/PebbleSportsService.java:584-596 | The custom message uses only the four `MSG_SET_*` keys and contains the whole state acknowledgement. It has the names key exactly when names are given. |
| `Wearable.SportsPayload` | src/org/meulenhoff/pebblemytracks/PebbleSportsService.java:601-638 | The sports message has exactly the time, units, label, distance and data keys of the SDK, whatever their integer values. |
| `Wearable.Dispatch` | src/org/meulenhoff/pebblemytracks/PebbleSportsService.java:587-591 | The names go along exactly when the counter is positive, and exactly when the counter drops. It drops by at most one. |
| `Wearable.SportsPayloadContents` | src/org/meulenhoff/pebblemytracks/PebbleSportsService.java:606-635 | The speed text is always under the data key, which is added last. When the five sports keys are pairwise different, there are exactly five entries and each key carries the value added under it: the clock text, the units code, the speed label code and the distance text. |
| `Wearable.CustomPayloadContents` | src/org/meulenhoff/pebblemytracks/PebbleSportsService.java:585-595 | The custom message carries the values and both state codes. It carries the names exactly when they are due, and nothing else. |
| `Wearable.SportsTimeReadsBack` | src/org/meulenhoff/pebblemytracks/PebbleSportsService.java:606-612 | For a non-negative total time and pairwise different sports keys, the sports message's time text reads back as hours, minutes and seconds (or minutes and seconds) that add up to the whole seconds of the total time. |
| `Wearable.CounterAfterValue` | src/org/meulenhoff/pebblemytracks/PebbleSportsService.java:587-591 | From a counter c, k connected dispatches leave max(c - k, 0). |
| `Wearable.ResendSchedule` | src/org/meulenhoff/pebblemytracks/PebbleSportsService.java:210-213 | After the counter is set to c, dispatch k carries the names exactly when k < c, and the counter never goes below 0. With c = 5, five dispatches carry them and the sixth does not. |
| `Service.TrackingService.IsRecording` | src/org/meulenhoff/pebblemytracks/PebbleSportsService.java:381 | Answers the tracking service's recording flag. |
| `Service.TrackingService.IsPaused` | src/org/meulenhoff/pebblemytracks/PebbleSportsService.java:382 | Answers the tracking service's paused flag. |
| `Service.TrackingService.StartNewTrack` | src/org/meulenhoff/pebblemytracks/PebbleSportsService.java:398 | Records one startNewTrack call and nothing else. |
| `Service.TrackingService.EndCurrentTrack` | src/org/meulenhoff/pebblemytracks/PebbleSportsService.java:404-407 | Records one endCurrentTrack call and nothing else. |
| `Service.TrackingService.PauseCurrentTrack` | src/org/meulenhoff/pebblemytracks/PebbleSportsService.java:413 | Records one pauseCurrentTrack call and nothing else. |
| `Service.TrackingService.ResumeCurrentTrack` | src/org/meulenhoff/pebblemytracks/PebbleSportsService.java:418 | Records one resumeCurrentTrack call and nothing else. |
| `Service.PebbleSportsService.constructor` | src/org/meulenhoff/pebblemytracks/PebbleSportsService.java:148-183 | Both states start at NOTHING with no command. The preferences are loaded, the updater runs with the counter at 10, and the snapshot is primed. |
| `Service.PebbleSportsService.ReloadPreferences` | src/org/meulenhoff/pebblemytracks/PebbleSportsService.java:185-207 | The configuration fields take the preference values, each slot takes its parameter, and appUUID is the alternative UUID exactly when the alternative app is used. |
| `Service.PebbleSportsService.OnSharedPreferenceChanged` | src/org/meulenhoff/pebblemytracks/PebbleSportsService.java:209-213 | After reloading, the label counter is 5. |
| `Service.PebbleSportsService.StopUpdater` | src/org/meulenhoff/pebblemytracks/PebbleSportsService.java:215-224 | Idempotent: afterwards the updater is not running, and nothing else changes. |
| `Service.PebbleSportsService.StartUpdater` | src/org/meulenhoff/pebblemytracks/PebbleSportsService.java:226-257 | When already running nothing changes. Otherwise the counter becomes 10, the snapshot is primed and the updater runs. |
| `Service.PebbleSportsService.InitSportsData` | src/org/meulenhoff/pebblemytracks/PebbleSportsService.java:350-373 | The loop leaves the snapshot primed: fake start time from the last track, odometer summed over all tracks. |
| `Service.PebbleSportsService.ProcessCommand` | src/org/meulenhoff/pebblemytracks/PebbleSportsService.java:259-305 | The updater runs afterwards, and the desired state and command follow the command table. When connected, one state acknowledgement goes to the alternative app. |
| `Service.PebbleSportsService.UpdateMyTracks` | src/org/meulenhoff/pebblemytracks/PebbleSportsService.java:375-439 | Bound: the current state is observed from the flags, at most the one guarded action is called, and the command ends up cleared. The updater stops exactly in a terminal state and is otherwise unchanged. Unbound: nothing changes. |
| `Service.PebbleSportsService.UpdateSportsData` | src/org/meulenhoff/pebblemytracks/PebbleSportsService.java:441-488 | Each field is set in turn and the snapshot ends up as the refresh of the old one, including the null-collaborator paths. |
| `Service.PebbleSportsService.SlotStrings` | src/org/meulenhoff/pebblemytracks/PebbleSportsService.java:493-582 | The slot loop builds exactly the `;`-join of the slot value tokens and the `;`-join of the slot labels, one token per slot in slot order. |
| `Service.PebbleSportsService.UpdateMyApp` | src/org/meulenhoff/pebblemytracks/PebbleSportsService.java:490-598 | The joined tokens of the slots are built first. Connected: one message goes to the alternative app, with the names, and then the counter drops by one, exactly when the counter was positive; a counter at 0 stays 0. Disconnected: nothing changes. |
| `Service.PebbleSportsService.UpdatePebbleSportsApp` | src/org/meulenhoff/pebblemytracks/PebbleSportsService.java:601-642 | One sports message goes to appUUID, with the time, units, label, tiered distance and speed. The distance is `SportsDistance` (lines 615-622): kilometres, times `KM_TO_MILES` for imperial units. |
| `Service.PebbleSportsService.Tick` | src/org/meulenhoff/pebblemytracks/PebbleSportsService.java:238-253 | One run of the scheduled task, which exists only while the updater runs. Bound: reconcile as `UpdateMyTracks` says, with the tracking service's flags unchanged, so the observed state is that of the flags before the tick. Unbound: state, command and running flag unchanged. The snapshot is refreshed. Then the sports message goes out, or the custom message and the counter step exactly as `UpdateMyApp` says. |
| `Service.StartFromIdle` | src/org/meulenhoff/pebblemytracks/PebbleSportsService.java:394-400 | START with an idle, bound tracking service: the next tick starts exactly one track, clears the command and keeps the updater running. |
| `Service.PauseWhenPaused` | src/org/meulenhoff/pebblemytracks/PebbleSportsService.java:411-433 | PAUSE when already paused: nothing is called, and the updater stops itself. |

## Left out

- The Android service lifecycle is not modelled, because it is framework plumbing. This covers `onDestroy`, `onStartCommand` (it only forwards its command code to `processCommand`), `onBind`, `startMyTracksService`, `stopMyTracksService` and the `serviceConnection` callbacks. The scenarios assign `myTracksService` directly, as `onServiceConnected` does.
- PebbleKit is a foreign SDK. `isWatchConnected` is the `connected` parameter, and `sendDataToPebble` appends to `outbox`. `startWatchApp`, `stopWatchApp` and `customizeWatchApp` (branding) are left out.
- The `ScheduledExecutorService` is reduced to the `running` flag. The thread pool, the delay and the concurrency between `processCommand` and the ticks are not modelled. `Tick` is one run of the scheduled task.
- Exceptions: only the null answers of the content provider are modelled, in `initSportsData` and `updateSportsData`, with the partial update they leave. Remote errors from the tracking service and the catch-all handlers are not modelled; collaborator calls are assumed to succeed.
- The tracking service's actions are only logged. How they change its own flags is up to MyTracks, and the bridge sees the result on the next tick.
- `reloadPreferences` parsing (`UUID.fromString`, `Integer.parseInt`, `ParameterType.valueOf`) is left out. `Preferences` holds already parsed values. A parse failure would abort `onSharedPreferenceChanged` before the counter reset; that path is not modelled.
- `Text.Pad2`: Java's `String.format("%02d", …)` formats in the default locale, which may use non-ASCII digits (Arabic or Persian locales, for example). The model always writes the ASCII digits '0'..'9', so `Formatting.ClockTextRoundTrip` and `Wearable.SportsTimeReadsBack` describe an ASCII-digit locale only.
- Floating point is modelled by exact reals. The "%.0f"/"%.1f"/"%.2f" digit rendering is the `decimal` field of `Renderer`; only the choice of value and number of decimals is modelled.
- MyAppSettings is not part of this model. `numFields` is an abstract positive constant (`Formatting.NumFields`), and the slot labels (`getPebbleString`) are the `pebbleName` field of `Renderer`.
- SportsData is not part of this model. Its fields are the `SportsData` datatype, assumed to start at zero. The source writes the elevation gain with `setTotalelevation` (line 473) and reads it with `getElevationGain` (line 570); both are assumed to access the same value, the `elevationGain` field. The unit factors are assumed to be the standard ones, 3.6, 2.23694, 1/1609.344 and 3.28084, since SportsData's constants are not shown. `KM_TO_MILES` is taken as 1000/1609.344.
- `Location.distanceTo` (geodesic) is the `distanceTo` parameter, and `System.currentTimeMillis` is the `now` parameter.
- The `default` branch of the slot switch ("0.0") is left out, because no modelled parameter type reaches it.
- Millisecond arithmetic is on unbounded integers. 64-bit wrap-around cannot occur for real timestamps, so it is not modelled.
- The `PebbleDictionary` is modelled as a map, so the order of its entries is not modelled.
- `Wearable.SportsPayload`: both message shapes are `PebbleDictionary` objects with integer keys. The custom app's keys are `MSG_SET_*` (1 to 4); the sports keys are the SDK's `Constants.SPORTS_*_KEY`, whose values are not shown, so the model leaves them as abstract constants. The model therefore proves nothing about whether the two shapes share keys. Where a property needs the sports keys to be pairwise different (`Wearable.SportsPayloadContents`, `Wearable.SportsTimeReadsBack`), that is stated as a hypothesis.
- src/org/meulenhoff/pebblemytracks/MyPreferencesActivity.java is a settings screen and is left out.
- Application UUIDs are modelled as `SportsUuid` or `Alternative(uuid)`, which are always distinct. If the configured alternative UUID equals the sports app's own UUID, the source addresses the same app in both cases, while the model treats them as two addresses.
