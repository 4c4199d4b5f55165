# Meeting-room display client: sync loop, action pipeline, router and quick booking

A Dafny model of the decision logic of the room display client of Roombelt.

- **The device sync loop.** It polls the server for the device's details on an adaptive delay. A generation counter, standing in for the cancellation token, discards stale fetches. Failures are classified: 404 means the device was removed, 402 means the subscription was cancelled.
- **The auto-checkout guard.** It silently deletes a meeting whose check-in deadline has passed.
- **The connectivity observer.** This is the response interceptor that keeps the offline flag.
- **The API-version watchdog.**
- **The single-slot meeting-action pipeline.** It covers start, success, failure and retry.
- **The top-level view router.**
- **The quick-booking buttons** of the "room available" bar.

Asynchronous code is cut at its suspension points. Remote calls and timed waits become `Effect`s that the machine emits. Their completions become later `Event`s. Every settled call passes through the interceptor before its handler runs. All transitions are pure functions over an immutable `Device.State`.

Files and modules:

| file | module | contents |
|---|---|---|
| common.dfy | `Common` | `Option`, `Outcome` (payload, or failure with an optional status code) |
| api.dfy | `Api` | the remote calls the core builds, as data |
| priority.dfy | `Priority` | first-match rule tables |
| polling.dfy | `Polling` | the polling-delay table and its millisecond constants |
| transport.dfy | `Transport` | the offline interceptor and its meaning over call sequences |
| watchdog.dfy | `Watchdog` | the version check and its meaning over reply sequences |
| actions.dfy | `Actions` | action descriptors, the action slot, the call each action makes |
| device.dfy | `Device` | state, events, effects, handlers, `Step`, `After`, run lemmas |
| router.dfy | `Router` | view selection |
| quickbooking.dfy | `QuickBooking` | offered buttons, their rendering, the click |

## Model

| member | source | states |
|---|---|---|
| Polling.Delay | frontend/src/apps/device/store/actions.js:139-147 | If the device is removed, the delay is one year whatever the other flags say. Otherwise a cancelled subscription gives 10 minutes. Otherwise a dashboard device or a selected calendar gives 30 s. Otherwise it is 5 s. Each delay value occurs exactly under its condition, and every delay lies between 5 s and one year. |
| Polling.DelayFollowsRuleTable | frontend/src/apps/device/store/actions.js:139-147 | The delay is the outcome of the first applicable rule of the three-rule priority table, falling back to 5 s. |
| Priority.FirstMatch | frontend/src/apps/device/router.js:33-50 | First-match selection gives no outcome iff no guard holds. Otherwise its outcome belongs to the first rule whose guard holds. |
| Transport.Observe | frontend/src/apps/device/store/actions.js:179-195 | A failure that carries a response never changes the flag and never voids the action. A failure without a response leaves the flag raised. A success always leaves the flag clear, and it voids the action exactly when the device was offline. |
| Transport.OfflineIffLastDecisiveCallWasNetworkLoss | frontend/src/apps/device/store/actions.js:179-195 | After any sequence of calls, the flag is raised iff the most recent call that was not a server rejection got no response. If every call was a rejection, the flag keeps its initial value. |
| Transport.RejectionsNeverMoveTheFlag | frontend/src/apps/device/store/actions.js:189-195 | A sequence made only of server rejections leaves the flag unchanged, in either direction. |
| Watchdog.CheckVersion | frontend/src/apps/device/store/actions.js:59-69 | A check reloads iff the previous version is known and differs from a non-empty new one. Any received body becomes the new baseline. A missing body changes nothing. |
| Watchdog.BaselineIsLastReported | frontend/src/apps/device/store/actions.js:66-68 | After a run of checks, the baseline is the version of the most recent body received, or the initial one if none was received. |
| Watchdog.ReloadIffReportedVersionChanged | frontend/src/apps/device/store/actions.js:56-73 | For a watchdog started without a baseline, check number i reloads iff it reports a non-empty version and the most recent earlier body reported a different non-empty version. |
| Watchdog.FirstBodyNeverReloads | frontend/src/apps/device/store/actions.js:57-64 | No check reloads before some body has been received. In particular the first observed version never triggers a reload. |
| Actions.RequestFor | frontend/src/apps/device/store/actions.js:234-284 | An action on the current meeting makes no call iff there is no current meeting, and otherwise targets that meeting's id. Every call can be decoded back to the exact action and parameters that made it. |
| Actions.RequestsIdentifyTheirAction | frontend/src/apps/device/store/actions.js:234-284 | Two actions that make the same call are the same action with the same parameters. |
| Device.StartFetch | frontend/src/apps/device/store/actions.js:110-115 | A fetch issues a new generation that is the only fresh one, so every earlier fetch becomes stale. It requests the details, expanded to all calendars iff that view is open. |
| Device.CheckoutRequest | frontend/src/apps/device/store/actions.js:157-166 | The guard deletes the current meeting silently iff the minutes left to check in are known and negative. The silent deletion decodes to no user action. |
| Device.OnFetchSettled | frontend/src/apps/device/store/actions.js:113-137 | The generation, the all-calendars flag and the watchdog baseline never change. The reload flag is raised iff the reply is a success whose non-empty version differs from the running build, before the staleness check. A stale success leaves the device data, the language, the cancelled flag and the removed flag alone and schedules nothing; the interceptor may still clear the offline flag and void the slot. A fresh success stores the data and language, clears the cancelled flag, runs the guard and then waits the delay. A failure sets removed on 404 and cancelled on 402, leaves the device data and language alone, and always waits. |
| Device.OnFetchTimerFired | frontend/src/apps/device/store/actions.js:149-155 | When a stale fetch's wait ends, nothing happens. When the latest fetch's wait ends, the next generation starts. |
| Device.OnCheckoutDeleteSettled | frontend/src/apps/device/store/actions.js:162-165 | A successful silent deletion starts the next generation's fetch, expanded iff the all-calendars view is open. A failed one starts nothing. |
| Device.Intercept | frontend/src/apps/device/store/actions.js:179-195 | A failure that carries a response leaves the state unchanged. A failure without one raises the offline flag and keeps the slot. A success clears the flag and empties the slot exactly when the device was offline. Nothing else changes. |
| Device.OnVersionChecked | frontend/src/apps/device/store/actions.js:59-69 | A failed check keeps the baseline and the reload flag. An answer moves the baseline and reload flag as `Watchdog.CheckVersion` decides, and an empty body keeps both. A reload is newly requested iff there is a body, the known previous version is non-empty and it differs from the non-empty new one. Only the offline flag, the slot, the baseline and the reload flag can change. |
| Device.FirstVersionCheckNeverReloads | frontend/src/apps/device/store/actions.js:57-68 | From the initial state the first version answer never reloads; any body received becomes the baseline. |
| Device.Dispatch | frontend/src/apps/device/store/actions.js:234-277 | Starting an action overwrites the whole slot with the new descriptor, no source and phase running. It makes exactly the call `RequestFor` gives against the current state, or no call at all. |
| Device.OnRetry | frontend/src/apps/device/store/actions.js:229-232 | Retry replays the stored descriptor, so the slot keeps that descriptor and the call is the one a fresh start would make. With nothing stored, only the retrying mark remains. |
| Device.RetryBooksTheSameLength | frontend/src/apps/device/store/actions.js:229-244 | Retrying a failed quick booking of m minutes books m minutes again. |
| Device.RetryTargetsTheMeetingCurrentAtReplay | frontend/src/apps/device/store/actions.js:246-253 | Retrying a cancel deletes whichever meeting is current at replay time, non-silently. |
| Device.StartLeavesNoTraceOfPreviousAction | frontend/src/apps/device/store/actions.js:234-235 | Two states that differ only in their action slots are equal after the same action starts. |
| Device.OnMeetingCallSettled | frontend/src/apps/device/store/actions.js:286-291 | When the call and the refresh succeed, the refreshed data is stored and the slot is cleared. Nothing but the device data, the slot and the offline flag changes. |
| Device.MeetingCallFailurePaths | frontend/src/apps/device/store/actions.js:292-297 | When the call or the refresh fails and the fallback refresh succeeds, the fallback's data is stored and the failing status recorded. When the fallback refresh fails too, no error is recorded: the device data stays and the slot stays as it was, or is voided by a success that ended an outage. |
| Device.OnCrossRoomCallSettled | frontend/src/apps/device/store/actions.js:300-314 | If the call and the refresh succeed, the data is stored and the action marked successful. Otherwise the action is marked failed with no status and the device data is left alone. |
| Device.FailureKeepsDescriptorForRetry | frontend/src/apps/device/store/actions.js:286-312 | While online, a recorded failure keeps the descriptor and the source and only sets the phase and the status: after a rejected meeting call, after a successful meeting call whose refresh was rejected, and after any cross-room failure (with no status). |
| Device.StepHandlesViewsAndDisconnect | frontend/src/apps/device/store/actions.js:199-221 | Opening the all-calendars view sets its flag and issues a fresh expanded fetch. Closing it empties the slot, clears the flag and issues nothing. Ending an action empties the slot and nothing else. Setting the source records it on the current action without changing its descriptor or phase. A disconnect sends the removal, and the page reloads after the removal succeeds and not after it fails. |
| Device.StepKeepsTerminalFlags | frontend/src/apps/device/store/actions.js:131-133 | No event changes the running build, un-removes the device or withdraws a requested reload. |
| Device.StepIssuesGenerationsInOrder | frontend/src/apps/device/store/actions.js:111 | An event either issues exactly one fetch, which carries the new generation (one more than before), or issues none and keeps the generation. |
| Device.OnlyLatestFetchWritesData | frontend/src/apps/device/store/actions.js:121-128 | Only a fresh successful fetch changes the language. The device data changes only through a fresh fetch or an action handler's refresh. |
| Device.WaitsBelongToTheirFetch | frontend/src/apps/device/store/actions.js:139-149 | A wait is scheduled only by the fetch it belongs to. Once the device is removed, every wait is one year. |
| Device.RunIsMonotone | frontend/src/apps/device/store/actions.js:110-155 | Along any run of events, generations never decrease, removal stays and a requested reload stays. |
| Device.StaleFetchStaysVoid | frontend/src/apps/device/store/actions.js:117-155 | Once a generation is stale it stays stale at every point of any run. Its later successful reply leaves the device data, the language, the cancelled flag and the removed flag alone and schedules nothing; the build check may still raise the reload flag and the interceptor may still move the offline flag and slot. Its timer changes nothing and starts nothing. |
| Router.Route | frontend/src/apps/device/router.js:33-50 | Offline wins over everything and shows the offline fatal view. Next comes removed, showing the disconnect fatal view with its disconnect button, then cancelled with the subscription view. Dashboard beats all calendars, which beats a single calendar, which beats no-calendar. After that a non-empty connection code is shown, and otherwise nothing. |
| Router.RouteFollowsRuleTable | frontend/src/apps/device/router.js:33-50 | The router equals the first match of its eight-rule table. |
| Router.RouteIsTheOnlyAdmissibleView | frontend/src/apps/device/router.js:33-50 | The router's result is admissible for the table, and every admissible outcome equals it. So exactly one outcome exists for every input. |
| Router.NotFoundShowsDisconnectScreen | frontend/src/apps/device/router.js:34-42 | A 404 reply to a device fetch, fresh or stale, while online leads to the disconnect screen with its disconnect button. |
| Router.NetworkLossShowsOfflineScreen | frontend/src/apps/device/router.js:33 | A device fetch with no response leads to the offline screen. |
| QuickBooking.Offered | frontend/src/apps/device/views/single-calendar/actions-bar/RoomAvailable.js:24-28 | 15 is offered iff more than 20 minutes are free, 30 iff more than 40, 60 iff more than 70, 120 iff more than 130. A custom button with exactly the free minutes is offered iff at most 130 are free. Nothing else is offered, and every offered length fits the gap. |
| QuickBooking.ShorterFixedLengthsAreOffered | frontend/src/apps/device/views/single-calendar/actions-bar/RoomAvailable.js:24-27 | If a fixed length is offered, every shorter fixed length is offered too. |
| QuickBooking.TwoHoursOrTimeLeft | frontend/src/apps/device/views/single-calendar/actions-bar/RoomAvailable.js:27-28 | Exactly one of "create-120" and "create-custom" is offered. |
| QuickBooking.OfferedByRange | frontend/src/apps/device/views/single-calendar/actions-bar/RoomAvailable.js:24-28 | The offered row for each range of free minutes: up to 20, up to 40, up to 70, up to 130, and beyond. |
| QuickBooking.OfferedInAscendingOrder | frontend/src/apps/device/views/single-calendar/actions-bar/RoomAvailable.js:24-28 | The buttons appear in strictly increasing order of length, the custom length last. |
| QuickBooking.OfferedNamesAreDistinct | frontend/src/apps/device/views/single-calendar/actions-bar/RoomAvailable.js:24-28 | No two offered buttons share a name. |
| QuickBooking.Render | frontend/src/apps/device/views/single-calendar/actions-bar/RoomAvailable.js:11-18 | Every button is disabled iff an action source is set. A button spins iff the source is its name. At most one button spins, and if one spins, all are disabled. |
| QuickBooking.Press | frontend/src/apps/device/views/single-calendar/actions-bar/RoomAvailable.js:39-42 | A click starts a create-meeting action with the button's length and then records the button's name as the source. The only call it makes is the creation for that length in the displayed room. |
| QuickBooking.PressedButtonAloneSpins | frontend/src/apps/device/views/single-calendar/actions-bar/RoomAvailable.js:14-16 | After a click on an offered button, that button spins, no other button does, and all are disabled. |
| QuickBooking.QuickBookingSucceeds | frontend/src/apps/device/views/single-calendar/actions-bar/RoomAvailable.js:24-42 | With 25 minutes free, the 15-minute button is offered. Clicking it starts the booking. When the call and the refresh succeed, the refreshed data is stored and the slot is empty again. |

## Behaviour of the code worth knowing

Each of these is what the code does, and the model does the same.

- **Stale failures still count.** A fetch whose generation is already stale still marks the device removed on 404, or the subscription cancelled on 402. The catch branch (actions.js:130-137) does not check the token. Only the success branch (121-123) and the post-wait check (151-153) do.
- **Rejections leave the offline flag alone.** A failure that carries a server response never clears the offline flag (actions.js:189-195). Only a success clears it.
- **Retry re-reads the meeting id.** Cancel, end, check-in, extend and start-early look up the current meeting's id each time they run (actions.js:249, 280). A retry therefore targets the meeting that is current when it replays. The parameters that the descriptor does carry are replayed unchanged, such as the length of a booking.
- **Cross-room creation can be retried.** Its descriptor is stored like any other (actions.js:301). Its failures record no status code (actions.js:312).
- **Reload does not stop processing.** A fetch that requests a reload goes on (actions.js:117-123). The model records the reload in a terminal flag and keeps processing events.
- **An empty version resets the watchdog.** A version reply with an empty or missing version becomes the baseline (actions.js:66-68). The next differing version then does not reload.
- **The action can be lost after an outage.** Suppose an action's call gets no response and the fallback refresh then succeeds. The interceptor voids the slot before the error is recorded, so there is nothing left to retry.
- **A succeeded call can be retried.** When a meeting call succeeds but the refresh after it is rejected, the catch branch records the refresh's status as the action's error and keeps the descriptor (actions.js:290, 295-296). A retry then sends the call that already succeeded again.
- **A failed fallback refresh records nothing.** When an action's call fails and the refresh in the catch branch fails too, that refresh throws before the error is recorded (actions.js:292-297). The action stays running with no error, so the pressed button keeps spinning and every button stays disabled.

## Left out

- React rendering, JSX and the `connect` wiring. Views and buttons are datatypes.
- i18n (`i18next.t`, `changeLanguage`) and the meeting-title strings. The language is an opaque string that is copied.
- Full-screen support, `screenfull`, the font size, and the clock (`$startClock`, `$updateClock`). These are foreign UI code and timers.
- The HTTP client, its endpoints, `setInterval`, `wait`, `waitUntilTrue` and `Date.now`. They become effects and events. The five-minute watchdog interval is not modelled: each check is a `VersionChecked` event.
- `window.location.reload`. It becomes the terminal `reloaded` flag.
- The `ms` package. Its values appear as millisecond constants; a year is 365.25 days.
- The selectors. Their values are taken as given: fields of `DeviceData` and `Meeting`, and the router's `connected` and `connectionCode` inputs.
- The action-slot reducer, which is not part of this model. The model assumes the following: starting overwrites the whole slot; an error keeps the descriptor and the source; retrying sets the phase; success sets the phase; ending clears the slot. An empty or freshly started slot has the source `null`, never `undefined`, so `None` is the only source that leaves the quick-booking buttons enabled.
- `initialize`. Its 403 → `createDevice` path and its start-up ordering are I/O orchestration. Its fetch is the `FetchRequested` event, and the interceptor is treated as installed from the start.
- `showAllCalendarsView`'s 30-second inactivity wait and activity timestamp. Only opening (set the flag, start a fetch) and closing (end the action, clear the flag) are modelled.
- Interleaving. Other events cannot run between the awaits inside one action handler: each handler settles as one composite event. The environment may also report events that a real run could not produce, such as settlements for generations that were never issued. The lemmas hold for all event sequences regardless.
- `console.error` logging.
- Device.CheckoutRequest: only the single decision is stated. Whether an overdue meeting is deleted once depends on the server removing it, which is outside the model.
- Device.OnVersionChecked: reload is a terminal flag, so the model does not count how many times a reload is requested.
