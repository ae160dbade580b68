# Water reminder: a Dafny model of the page's state machine

The water-reminder page is a React application. Its `App` component counts
the glasses of water the user logs against a daily goal. It shows how far the
user has got and how many glasses remain. While browser notifications are
allowed, it keeps one `setInterval` timer running that sends a "Water
Reminder" notification every few minutes. The `ReminderSettings` panel offers
fixed goal and interval choices, a button that either asks for notification
permission or sends a test notification, and a reset button.

The model has four modules:

- `Browser` (browser.dfy) holds the browser's vocabulary: timer handles
  (positive integers, so a stored handle is truthy), the permission result, the
  notifications the page constructs, and the number-to-string conversions. One
  conversion is `${n}`/`String(n)` for the option values and the confirmation
  text. The other is `Number(...)` on those strings.
- `ReminderSettings` (reminder_settings.dfy) is pure. It holds the option
  lists, what each select hands to its setter, `testNotification` as a
  function from the platform's answers to the effects it produces, and the
  notification controls as a function of `notificationsEnabled`.
- `WaterApp` (app.dfy) holds the derived figures as functions and the
  component as the class `App`. The class's fields are:
  - the `useState` values: `intake`, `goal`, `interval`, `enabled`, and
    `stored` (which is `reminderTimerId`);
  - `captured`, the handle the pending cleanup closure holds;
  - `mounted`;
  - the browser side: `live` (the timers not yet cleared, with their periods),
    `nextId`, and `sent` (every notification `App` constructs: the
    confirmations and the reminders; the test notice of `testNotification`
    appears only as an `Effect` of `ReminderSettings.TestNotification`).

  React re-runs the reminder effect only when `reminderInterval` or
  `notificationsEnabled` actually changes. A re-run is the previous cleanup
  followed by the effect body (`RerunReminderEffect`). `Valid()` is the
  invariant every transition of the code as written keeps:
  - at most one timer is live, and it is the stored one;
  - the handle held by the cleanup has already been cleared;
  - a timer runs exactly when notifications are enabled, and at the current
    period.
- `AppScenarios` (scenarios.dfy) holds short sessions checked against the `App`
  contracts: reconfiguring, disabling twice, ticks, the unmount leak, and
  reaching the goal.

The cleanup returned by the effect closes over the `reminderTimerId` of the
render in which the effect ran. That is the handle stored *before* the body
ran, and the body has already cleared it. So the cleanup never stops a live
timer. Reconfiguring still stays correct, because the next effect body clears
the current stored handle. Unmounting, however, leaves a running reminder
timer live (`App.Unmount`, `UnmountLeavesTimerRunning`).

Some behaviour a reader might expect is not in the code, so the model does
not include it:
- `App.jsx` and `ReminderSettings.jsx` have no goal-reached signal, no
  celebration, no sound and no vibration.
- Unmounting does not cancel the reminder timer (see Findings).
- Permission is not re-checked when reminders go active. Only the flag set by
  the last permission answer is used.
- `reminderTimerId` is never reset to null, not even after reminders are
  switched off. The model keeps the stale handle, and clearing it again is
  harmless.

Browser calls are modelled as abstract effects:
- `setInterval` and `clearInterval` add handles to `live` and remove them;
- `new Notification` appends to `sent`;
- `alert` and `console.error` are `Effect` values.

The permission promise's answer is a parameter of `App.ApplyPermission`.
Whether the `Notification` capability exists, the platform's current
permission, and whether the constructor throws are parameters of
`ReminderSettings.TestNotification`.

## Model

| member | source | states |
|---|---|---|
| `Browser.Decimal` | src/App.jsx:123 | the rendering of a number is a non-empty string of digits with no leading zero (unless the number is 0) |
| `Browser.DecimalValue` | src/components/ReminderSettings.jsx:146 | `Number` of a string is defined in the model exactly when the string consists of ASCII digits; on a canonical digit string (non-empty, no leading zero) the number renders back to that very string |
| `Browser.CanonicalRoundTrip` | src/components/ReminderSettings.jsx:146-149 | a digit string is canonical if and only if it is the rendering of its own value, so the option values are exactly the strings `String` produces |
| `Browser.DecimalRoundTrip` | src/components/ReminderSettings.jsx:146-149 | reading back a rendered number with `Number` gives the number itself |
| `Browser.DecimalInjective` | src/components/ReminderSettings.jsx:148-149 | distinct numbers render as distinct option values |
| `Browser.ActivatedNotice` | src/App.jsx:122-125 | the confirmation has the "Water Reminder Activated" title and the water icon and is never the tick reminder (its body is described by `ActivatedNoticeNamesInterval`) |
| `Browser.ActivatedNoticeNamesInterval` | src/App.jsx:121-125 | the confirmation has the "Water Reminder Activated" title and the water icon, differs from the tick reminder, and its body is the fixed prefix, then the interval (recoverable with `Number`), then the fixed suffix |
| `Browser.ActivatedNoticeInjective` | src/App.jsx:122-125 | confirmations for different intervals are different notifications |
| `ReminderSettings.OnGoalChange` | src/components/ReminderSettings.jsx:146 | the goal handler yields a number exactly for a digit string, and for a canonical one the number renders back to the selected value |
| `ReminderSettings.OnIntervalChange` | src/components/ReminderSettings.jsx:158 | the interval handler yields a number exactly for a digit string, and for a canonical one the number renders back to the selected value |
| `ReminderSettings.ChooseGoal` | src/components/ReminderSettings.jsx:144-151 | choosing the i-th goal option hands exactly that option's number to `setGoal`, and it is an allowed goal |
| `ReminderSettings.ChooseInterval` | src/components/ReminderSettings.jsx:156-167 | choosing the i-th interval option hands exactly that many minutes to `setReminderInterval`, and it is an allowed interval |
| `ReminderSettings.GoalChoicesExact` | src/components/ReminderSettings.jsx:148 | a goal is allowed iff some option produces it, iff it is one of 4, 6, 8, 10, 12 |
| `ReminderSettings.IntervalChoicesExact` | src/components/ReminderSettings.jsx:160-166 | an interval is allowed iff some option produces it, iff it is one of 1, 5, 10, 30, 60, 90, 120 minutes |
| `ReminderSettings.TestNotification` | src/components/ReminderSettings.jsx:122-136 | a notification (the test notice) is sent iff the capability exists, permission is "granted" and construction does not throw, and in that case the effects are exactly that one notice, with nothing logged; otherwise there is an alert and no notification; with no capability or no permission the only effect is the "not enabled" alert; a throw is logged with its message and alerted, and nothing else happens |
| `ReminderSettings.RenderControls` | src/components/ReminderSettings.jsx:170-193 | the status reads "enabled" iff notifications are enabled; the notification button invokes `testNotification` iff enabled and `requestNotificationPermission` iff not; its caption is "Test Notification" iff enabled and "Enable Notifications" when disabled; the "Test Notification Now" button is present iff enabled and tests; the reset button invokes `resetWater` |
| `WaterApp.PeriodMs` | src/App.jsx:117 | the timer period is a whole number of minutes in milliseconds, from which the interval is recovered, and at least one minute for a positive interval |
| `WaterApp.Remaining` | src/App.jsx:195 | the remaining count is never negative, is 0 iff intake ≥ goal, and below the goal adds to the intake to make the goal |
| `WaterApp.Progress` | src/App.jsx:156 | progress lies in [0, 100], equals 100 iff intake ≥ goal, and below the goal is exactly intake/goal of 100 |
| `WaterApp.AddingWaterAdvances` | src/App.jsx:137-139 | one more glass never lowers progress, and it lowers the remaining count by one until the goal is reached |
| `WaterApp.AtMostOneLiveTimer` | src/App.jsx:104-134 | under the invariant at most one timer is live, and any live timer is the stored one |
| `WaterApp.App.constructor` | src/App.jsx:88-92 | mounting gives intake 0, goal 8, interval 10, notifications off, no stored handle, no live timer, nothing sent, and the invariant |
| `WaterApp.App.StartTimer` | src/App.jsx:112-117 | `setInterval` adds one live timer with the given period, under a handle never used before |
| `WaterApp.App.ClearTimer` | src/App.jsx:106-108 | `clearInterval` removes that handle from the live timers; clearing a handle that is not live changes nothing |
| `WaterApp.App.ReminderEffectBody` | src/App.jsx:104-127 | the body clears the stored handle; when enabled it starts exactly one timer at `interval*60*1000` ms, stores its handle and appends one "activated" notice, and when disabled it starts and sends nothing; the cleanup it returns holds the handle stored before it ran |
| `WaterApp.App.ReminderEffectCleanup` | src/App.jsx:129-133 | the cleanup clears the handle its run captured, and nothing else |
| `WaterApp.App.RerunReminderEffect` | src/App.jsx:104-134 | a re-run (cleanup, then body) leaves no live timer when disabled, and exactly one live timer (the new stored one, at the current period) plus one more notice when enabled; the previously stored timer is no longer live |
| `WaterApp.App.AddWater` | src/App.jsx:137-139 | intake rises by exactly one; goal, interval, flag, timers and notifications are unchanged |
| `WaterApp.App.ResetWater` | src/App.jsx:142-144 | intake becomes 0 and nothing else changes |
| `WaterApp.App.SetGoal` | src/App.jsx:89 | the goal becomes the chosen allowed value, and no timer or notification is touched |
| `WaterApp.App.SetReminderInterval` | src/App.jsx:90 | the interval becomes the chosen value; an unchanged value changes nothing else, and a new value re-runs the reminder effect; the invariant is kept |
| `WaterApp.App.ApplyPermission` | src/App.jsx:95-101 | (the same callback as in `requestNotificationPermission`, lines 147-153) once mounted, a resolved request sets the flag to true iff the answer is "granted"; with no capability, or after unmount, nothing changes; an unchanged flag changes nothing else; a changed flag re-runs the reminder effect; the invariant is kept |
| `WaterApp.App.Tick` | src/App.jsx:112-116 | a tick of a live timer appends exactly one "Water Reminder" notification and changes nothing else |
| `WaterApp.App.ProgressPercentage` | src/App.jsx:156 | the progress shown for the current state lies in [0, 100], is 100 iff the intake has reached the goal, and below the goal is exactly intake/goal of 100 |
| `WaterApp.App.RemainingGlasses` | src/App.jsx:195 | the remaining count shown for the current state is 0 iff the intake has reached the goal, and below the goal adds to the intake to make the goal |
| `WaterApp.App.Unmount` | src/App.jsx:128-133 | unmounting leaves the set of live timers exactly as it was, so when reminders are on the stored timer is still live |
| `WaterApp.App.UnmountClearingLatest` | src/App.jsx:128-133 | the cleanup the comment intends: after unmount no timer is live |
| `AppScenarios.UnmountLeavesTimerRunning` | src/App.jsx:128-133 | after granting and unmounting, one timer is still live at the 10-minute period, and its tick still sends a reminder |
| `AppScenarios.CorrectedUnmountStopsTimer` | src/App.jsx:128-133 | with the corrected cleanup, no timer is live after unmount and only the confirmation was sent |
| `AppScenarios.ReconfigureKeepsOneTimer` | src/App.jsx:104-134 | enabling and then changing the interval twice leaves exactly one live timer at the newest period, with one confirmation per configuration |
| `AppScenarios.DisablingIsHarmlessToRepeat` | src/App.jsx:105-111 | disabling, disabling again and changing the interval while disabled leaves no live timer and sends nothing beyond the first confirmation |
| `AppScenarios.TicksOnlyRemind` | src/App.jsx:112-116 | ticks add only reminders, while intake, goal and remaining stay the same; a repeated "granted" sends nothing |
| `AppScenarios.UnsupportedChangesNothing` | src/App.jsx:96-100 | without the Notification capability the flag stays off, no timer starts and nothing is sent |
| `AppScenarios.ReachGoalThenReset` | src/App.jsx:156 | eight glasses against the default goal fill the progress to 100; a reset brings it back to 0 and keeps the goal |

## Left out

- Styling, layout, the `CircularProgressbar` and its colour, and `WaterButton.jsx` are presentation only.
- Real timing is not modelled: a tick is an explicit `App.Tick` call on a live handle, and wall-clock cadence is not represented.
- Permission requests resolve asynchronously. The model takes the resolved answer as the parameter of `App.ApplyPermission`, and issuing the request carries no state.
- `Number` is modelled only on strings of ASCII digits. Other strings (whitespace, signs, exponents, hexadecimal, `NaN`) are outside the model. The selects only ever produce option values, which are digit strings.
- `Progress` uses exact rational arithmetic (`real`), not IEEE floating point.
- JavaScript numbers are doubles; the model uses unbounded integers. `intake` would stop being exact above 2^53 and `String` would switch to exponent form from 10^21, but the page only renders values up to 120 and a glass counter never gets near either bound.
- Timer handles are modelled as a counter (`nextId`) that never hands out a handle twice, as browsers do. The HTML standard only asks for a handle that is not currently active; a browser that reused a just-cleared handle could make the stale cleanup of `App.Unmount` stop the live timer.
- `App.ReminderEffectBody` and `App.Tick`: a throwing `Notification` constructor is not modelled. `App.jsx` does not catch such a throw, either in the effect's confirmation or in the timer callback, although `testNotification` does. In the effect the throw would come after `setInterval` and `setReminderTimerId`, so no cleanup would be returned and the error would reach React uncaught. Both methods assume the constructor returns.
- Whether `new Notification` actually shows anything is not modelled: `sent` records the constructions. This matters when a tick fires after the platform's permission has been revoked.
- `console.error` and `alert` are recorded as `Effect` values. They carry only the error's message, not the error object.
- React's development-mode double invocation of effects (StrictMode) is left out, because the application's entry file is not part of this model.
- The user-facing `App` methods require a mounted page, because their buttons and selects exist only then. A permission answer arriving after unmount is dropped, as React drops state updates on an unmounted component.

## Findings

| source | as written | input that shows it | evidently intended | confidence | as-written member | corrected member |
|---|---|---|---|---|---|---|
| src/App.jsx:128-133 | the cleanup clears the `reminderTimerId` of the render in which the effect ran, which is the previous (already cleared) handle, not the timer that run started | permission granted, then the component unmounts: the 10-minute timer stays live and keeps sending "Water Reminder" notifications | the comment says the cleanup clears the interval when the component unmounts, so the running timer should stop | not executed | `AppScenarios.UnmountLeavesTimerRunning` | `WaterApp.App.UnmountClearingLatest` |
