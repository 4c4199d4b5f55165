/** The device client's state machine: the adaptive sync loop with its
    latest-wins generation counter, the auto-checkout guard, the offline
    interceptor, the version watchdog and the single-slot meeting-action
    pipeline. Asynchronous code is cut at its suspension points: each remote
    call or timed wait becomes an `Effect` the machine emits, and its
    completion becomes a later `Event`. */
module Device {
  import opened Common
  import opened Api
  import opened Actions
  import Polling
  import Transport
  import Watchdog

  /** The current meeting, reduced to what the core reads. The minutes left
      to check in are the selector's value: `None` when there is no deadline
      (for instance once checked in). */
  datatype Meeting = Meeting(id: string, minutesLeftForCheckIn: Option<int>)

  /** What `getDeviceDetails` returns, reduced to what the core reads. The
      values the selectors derive from it are taken as given. An empty
      `version` is a missing one. */
  datatype DeviceData = DeviceData(
    version: string,
    language: string,
    isDashboard: bool,
    isCalendarSelected: bool,
    currentMeeting: Option<Meeting>)

  /** The shared application state. `latestGeneration` replaces the
      cancellation token of the sync loop: fetch number `g` may act only while
      `g` is the latest generation issued. `reloaded` records that the page
      reload was requested, which ends this process instance. */
  datatype State = State(
    runningVersion: string,
    removed: bool,
    subscriptionCancelled: bool,
    offline: bool,
    showAllCalendars: bool,
    device: Option<DeviceData>,
    language: string,
    action: Slot,
    latestGeneration: nat,
    lastSeenVersion: string,
    reloaded: bool)

  /** The state before anything happened, for a build of `runningVersion`. */
  function Initial(runningVersion: string, language: string): State {
    State(runningVersion, false, false, false, false, None, language, Empty, 0, "", false)
  }

  /** The watchdog starts without a baseline, so the first answer it gets
      only records the server's version and never reloads the page. */
  lemma FirstVersionCheckNeverReloads(runningVersion: string, language: string, body: Outcome<Option<string>>)
    ensures var r := OnVersionChecked(Initial(runningVersion, language), body);
      && !r.reloaded
      && (body.Ok? && body.value.Some? ==> r.lastSeenVersion == body.value.value)
  {
  }

  /** What the machine asks its environment to do. */
  datatype Effect =
    | Send(request: Request)
    | Fetch(generation: nat, allCalendars: bool)
    | Sleep(generation: nat, delay: nat)

  /** What the environment reports. Every event carrying an `Outcome` is a
      settled call and passes the offline interceptor first. */
  datatype Event =
    | FetchRequested
    | FetchSettled(generation: nat, reply: Outcome<DeviceData>)
    | FetchTimerFired(generation: nat)
    | CheckoutDeleteSettled(deleted: Outcome<()>)
    | VersionChecked(body: Outcome<Option<string>>)
    | ActionStarted(descriptor: Descriptor)
    | ActionSourceSet(source: string)
    | RetryRequested
    | ActionEnded
    | MeetingCallSettled(call: Outcome<()>, refresh: Outcome<DeviceData>, fallback: Outcome<DeviceData>)
    | CrossRoomCallSettled(call: Outcome<()>, crossRefresh: Outcome<DeviceData>)
    | AllCalendarsOpened
    | AllCalendarsClosed
    | DisconnectRequested
    | DisconnectSettled(removal: Outcome<()>)

  datatype Transition = Transition(state: State, effects: seq<Effect>)

  /** Fetch number `g` still holds the latest token. Generation 0 is never
      issued. */
  predicate Fresh(s: State, g: nat) {
    0 < g == s.latestGeneration
  }

  function CurrentMeetingId(s: State): Option<string> {
    if s.device.Some? && s.device.value.currentMeeting.Some? then Some(s.device.value.currentMeeting.value.id)
    else None
  }

  /** The delay the sync loop waits after a fetch, read from the state. */
  function PollDelay(s: State): nat {
    var dashboard := s.device.Some? && s.device.value.isDashboard;
    var calendarSelected := s.device.Some? && s.device.value.isCalendarSelected;
    Polling.Delay(s.removed, s.subscriptionCancelled, dashboard, calendarSelected)
  }

  /** A settled call passing the offline interceptor. A failure that carries
      a response leaves the state alone; one without a response raises the
      offline flag; a success clears it and, if the device was offline,
      voids the action slot. */
  function Intercept<T>(s: State, o: Outcome<T>): (r: State)
    ensures r == s.(offline := r.offline, action := r.action)
    ensures o.IsRejection() ==> r.offline == s.offline && r.action == s.action
    ensures o.IsNetworkLoss() ==> r.offline && r.action == s.action
    ensures o.Ok? ==> !r.offline && r.action == (if s.offline then Empty else s.action)
  {
    var v := Transport.Observe(s.offline, o);
    s.(offline := v.offline, action := if v.endAction then Empty else s.action)
  }

  /** The action handlers store refreshed data without touching the language. */
  function Store(s: State, d: DeviceData): State {
    s.(device := Some(d))
  }

  // ---------------------------------------------------------------- sync loop

  /** Entry into the sync loop: a new generation is issued, which makes every
      fetch still in flight stale, and the device details are requested. */
  function StartFetch(s: State): (r: Transition)
    ensures r.state == s.(latestGeneration := s.latestGeneration + 1)
    ensures r.effects == [Fetch(r.state.latestGeneration, s.showAllCalendars)]
    ensures Fresh(r.state, r.state.latestGeneration)
    ensures forall g: nat :: g < r.state.latestGeneration ==> !Fresh(r.state, g)
  {
    var g := s.latestGeneration + 1;
    Transition(s.(latestGeneration := g), [Fetch(g, s.showAllCalendars)])
  }

  /** The auto-checkout guard: a meeting whose check-in deadline has passed
      is deleted silently. The silent deletion is not any user action. */
  function CheckoutRequest(d: DeviceData): (r: Option<Request>)
    ensures r.Some? <==>
      && d.currentMeeting.Some?
      && d.currentMeeting.value.minutesLeftForCheckIn.Some?
      && d.currentMeeting.value.minutesLeftForCheckIn.value < 0
    ensures r.Some? ==> r.value == DeleteMeeting(d.currentMeeting.value.id, true)
    ensures r.Some? ==> DescriptorOf(r.value).None?
  {
    match d.currentMeeting
    case Some(Meeting(id, Some(minutes))) =>
      if minutes < 0 then Some(DeleteMeeting(id, true)) else None
    case _ => None
  }

  function CheckoutEffects(d: DeviceData): seq<Effect> {
    match CheckoutRequest(d)
    case Some(request) => [Send(request)]
    case None => []
  }

  /** The device details of fetch `g` arrive. A build mismatch requests a
      reload before anything else; a stale fetch then stops without
      touching the state or scheduling; a fresh one stores the data, clears
      the cancelled flag, runs the auto-checkout guard and waits. A failure
      is classified by status (404 removed, 402 cancelled, anything else
      ignored) without a staleness check, and the loop waits. */
  function OnFetchSettled(s: State, g: nat, reply: Outcome<DeviceData>): (r: Transition)
    ensures r.state.latestGeneration == s.latestGeneration
    ensures r.state.showAllCalendars == s.showAllCalendars
    ensures r.state.lastSeenVersion == s.lastSeenVersion
    ensures r.state.reloaded <==>
      s.reloaded || (reply.Ok? && reply.value.version != "" && reply.value.version != s.runningVersion)
    ensures reply.Ok? && !Fresh(s, g) ==>
      && r.effects == []
      && r.state.device == s.device
      && r.state.language == s.language
      && r.state.subscriptionCancelled == s.subscriptionCancelled
      && r.state.removed == s.removed
    ensures reply.Ok? && Fresh(s, g) ==>
      && r.state.device == Some(reply.value)
      && r.state.language == reply.value.language
      && !r.state.subscriptionCancelled
      && r.state.removed == s.removed
      && r.effects == CheckoutEffects(reply.value) + [Sleep(g, PollDelay(r.state))]
    ensures reply.Err? ==>
      && r.state.removed == (s.removed || reply.status == Some(404))
      && r.state.subscriptionCancelled == (s.subscriptionCancelled || reply.status == Some(402))
      && r.state.device == s.device
      && r.state.language == s.language
      && r.effects == [Sleep(g, PollDelay(r.state))]
  {
    var s1 := Intercept(s, reply);
    match reply
    case Ok(d) =>
      var s2 := if d.version != "" && d.version != s.runningVersion then s1.(reloaded := true) else s1;
      if !Fresh(s2, g) then Transition(s2, [])
      else
        var s3 := s2.(language := d.language, device := Some(d), subscriptionCancelled := false);
        Transition(s3, CheckoutEffects(d) + [Sleep(g, PollDelay(s3))])
    case Err(status) =>
      var s2 := s1.(removed := s1.removed || status == Some(404),
                    subscriptionCancelled := s1.subscriptionCancelled || status == Some(402));
      Transition(s2, [Sleep(g, PollDelay(s2))])
  }

  /** The wait of fetch `g` is over: only the latest generation starts the
      next cycle; a stale one ends its loop. */
  function OnFetchTimerFired(s: State, g: nat): (r: Transition)
    ensures !Fresh(s, g) ==> r == Transition(s, [])
    ensures Fresh(s, g) ==> r.state.latestGeneration == g + 1 && r.effects == [Fetch(g + 1, s.showAllCalendars)]
  {
    if Fresh(s, g) then StartFetch(s) else Transition(s, [])
  }

  /** The silent deletion of the auto-checkout guard settled: on success the
      room is re-synchronised; a failure ends the guard. */
  function OnCheckoutDeleteSettled(s: State, deleted: Outcome<()>): (r: Transition)
    ensures deleted.Ok? ==>
      r.state.latestGeneration == s.latestGeneration + 1 && r.effects == [Fetch(s.latestGeneration + 1, s.showAllCalendars)]
    ensures deleted.Err? ==> r.effects == [] && r.state.latestGeneration == s.latestGeneration
  {
    var s1 := Intercept(s, deleted);
    if deleted.Ok? then StartFetch(s1) else Transition(s1, [])
  }

  // ----------------------------------------------------------------- watchdog

  /** A version check settled. A failed call changes nothing but the offline
      flag; an answer goes through the watchdog. */
  function OnVersionChecked(s: State, body: Outcome<Option<string>>): (r: State)
    ensures r == s.(offline := r.offline, action := r.action, lastSeenVersion := r.lastSeenVersion,
                    reloaded := s.reloaded || r.reloaded)
    ensures body.Err? ==> r.lastSeenVersion == s.lastSeenVersion && r.reloaded == s.reloaded
    ensures body.Ok? && body.value.Some? ==> r.lastSeenVersion == body.value.value
    ensures body.Ok? ==>
      var c := Watchdog.CheckVersion(s.lastSeenVersion, body.value);
      r.lastSeenVersion == c.baseline && r.reloaded == (s.reloaded || c.reload)
    ensures body == Ok(None) ==> r.lastSeenVersion == s.lastSeenVersion && r.reloaded == s.reloaded
    ensures r.reloaded && !s.reloaded <==>
      && !s.reloaded && body.Ok? && body.value.Some?
      && s.lastSeenVersion != "" && body.value.value != "" && s.lastSeenVersion != body.value.value
  {
    var s1 := Intercept(s, body);
    match body
    case Ok(reply) =>
      var c := Watchdog.CheckVersion(s1.lastSeenVersion, reply);
      s1.(lastSeenVersion := c.baseline, reloaded := s1.reloaded || c.reload)
    case Err(_) => s1
  }

  // ------------------------------------------------------------ action pipeline

  /** An action creator runs: the slot is overwritten with the new
      descriptor, so nothing of a previous action remains, and the action's
      call is made against the state as it is now. */
  function Dispatch(s: State, d: Descriptor): (r: Transition)
    ensures r.state == s.(action := Slot(Some(d), None, Running, None))
    ensures RequestFor(d, CurrentMeetingId(s)).Some? ==> r.effects == [Send(RequestFor(d, CurrentMeetingId(s)).value)]
    ensures RequestFor(d, CurrentMeetingId(s)).None? ==> r.effects == []
  {
    var s1 := s.(action := Start(d));
    match RequestFor(d, CurrentMeetingId(s1))
    case Some(request) => Transition(s1, [Send(request)])
    case None => Transition(s1, [])
  }

  /** Retry marks the slot as retrying and replays the stored descriptor, the
      same action with the same parameters. With nothing stored, replaying
      throws after the mark, so only the mark remains. */
  function OnRetry(s: State): (r: Transition)
    ensures s.action.descriptor.None? ==> r == Transition(s.(action := s.action.(phase := Retrying)), [])
    ensures s.action.descriptor.Some? ==>
      && r.state.action == Slot(s.action.descriptor, None, Running, None)
      && r == Dispatch(s, s.action.descriptor.value)
  {
    var marked := s.(action := MarkRetrying(s.action));
    match s.action.descriptor
    case Some(d) => Dispatch(marked, d)
    case None => Transition(marked, [])
  }

  /** Retrying a failed quick booking books the same length again. */
  lemma RetryBooksTheSameLength(s: State, minutes: int)
    requires s.action.descriptor == Some(Create(minutes))
    ensures Step(s, RetryRequested).effects == [Send(CreateMeeting(minutes, None))]
    ensures Step(s, RetryRequested).state.action.descriptor == Some(Create(minutes))
  {
  }

  /** Retrying an action on the current meeting re-reads the meeting id when
      it replays: the descriptor does not carry it, so the retry targets
      whatever meeting is current then. */
  lemma RetryTargetsTheMeetingCurrentAtReplay(s: State, id: string)
    requires s.action.descriptor == Some(Cancel)
    requires CurrentMeetingId(s) == Some(id)
    ensures Step(s, RetryRequested).effects == [Send(DeleteMeeting(id, false))]
  {
  }

  /** Starting an action leaves no trace of the previous one: two states
      that differ only in their action slots agree after the same start. */
  lemma StartLeavesNoTraceOfPreviousAction(s: State, t: State, d: Descriptor)
    requires s.(action := t.action) == t
    ensures Step(s, ActionStarted(d)) == Step(t, ActionStarted(d))
  {
  }

  /** The catch branch of the meeting-action handler: the device details are
      fetched again; if that succeeds they are stored and the error status is
      recorded, otherwise the handler itself fails and stops. */
  function RecordFailure(s: State, status: Option<int>, fallback: Outcome<DeviceData>): (r: State)
    ensures r == s.(offline := r.offline, action := r.action, device := r.device)
  {
    var s1 := Intercept(s, fallback);
    match fallback
    case Ok(d) => Store(s1, d).(action := WithError(s1.action, status))
    case Err(_) => s1
  }

  /** A create, cancel, end, check-in, extend or start-early call settled.
      The device details are always fetched again. After a success the data
      is stored and then the slot cleared; after a failure the data is
      stored and then the error status recorded, keeping the descriptor for
      retry. `fallback` is the second fetch the catch branch makes. The
      failure paths are stated by `MeetingCallFailurePaths`. */
  function OnMeetingCallSettled(s: State, call: Outcome<()>, refresh: Outcome<DeviceData>, fallback: Outcome<DeviceData>): (r: State)
    ensures r == s.(offline := r.offline, action := r.action, device := r.device)
    ensures call.Ok? && refresh.Ok? ==> r.device == Some(refresh.value) && r.action == Empty
  {
    var s1 := Intercept(s, call);
    if call.Ok? then
      var s2 := Intercept(s1, refresh);
      match refresh
      case Ok(d) => Store(s2, d).(action := Empty)
      case Err(status) => RecordFailure(s2, status, fallback)
    else
      RecordFailure(s1, call.status, fallback)
  }

  /** When the call or its refresh fails, the catch branch fetches again:
      if that succeeds its data is stored and the failing status recorded,
      and if it fails too the handler stops with nothing recorded, so the
      action stays as it was (unless a success ended an outage and voided
      it). */
  lemma MeetingCallFailurePaths(s: State, call: Outcome<()>, refresh: Outcome<DeviceData>, fallback: Outcome<DeviceData>)
    ensures var r := OnMeetingCallSettled(s, call, refresh, fallback);
      && (call.Err? && fallback.Ok? ==>
            && r.device == Some(fallback.value)
            && r.action.phase == Failed
            && r.action.errorStatus == call.status)
      && (call.Ok? && refresh.Err? && fallback.Ok? ==>
            r.device == Some(fallback.value) && r.action.phase == Failed && r.action.errorStatus == refresh.status)
      && (call.Err? && fallback.Err? ==> r.device == s.device && r.action == s.action)
      && (call.Ok? && refresh.Err? && fallback.Err? ==>
            r.device == s.device && r.action == (if s.offline then Empty else s.action))
  {
  }

  /** While online, a failure that gets recorded keeps the descriptor and the
      source, so the action can be retried: a rejected meeting call, a
      successful meeting call whose refresh was rejected (retry then sends
      the call that already succeeded again), and any failure of a
      cross-room creation. */
  lemma FailureKeepsDescriptorForRetry(s: State, call: Outcome<()>, refresh: Outcome<DeviceData>, fallback: Outcome<DeviceData>)
    ensures !s.offline && call.IsRejection() && fallback.Ok? ==>
      OnMeetingCallSettled(s, call, refresh, fallback).action == s.action.(phase := Failed, errorStatus := call.status)
    ensures !s.offline && call.Ok? && refresh.IsRejection() && fallback.Ok? ==>
      OnMeetingCallSettled(s, call, refresh, fallback).action == s.action.(phase := Failed, errorStatus := refresh.status)
    ensures !s.offline && !(call.Ok? && refresh.Ok?) ==>
      OnCrossRoomCallSettled(s, call, refresh).action == s.action.(phase := Failed, errorStatus := None)
  {
  }

  /** A meeting created in another room settled. On success the details of
      all rooms are fetched, stored and the action marked successful; any
      failure marks the action failed without a status and without a
      refresh. */
  function OnCrossRoomCallSettled(s: State, call: Outcome<()>, refresh: Outcome<DeviceData>): (r: State)
    ensures r == s.(offline := r.offline, action := r.action, device := r.device)
    ensures call.Ok? && refresh.Ok? ==> r.device == Some(refresh.value) && r.action.phase == Succeeded
    ensures !(call.Ok? && refresh.Ok?) ==> r.device == s.device && r.action.phase == Failed && r.action.errorStatus.None?
    ensures !s.offline && call.Ok? && refresh.Ok? ==> r.action.descriptor == s.action.descriptor
  {
    var s1 := Intercept(s, call);
    if call.Ok? then
      var s2 := Intercept(s1, refresh);
      match refresh
      case Ok(d) => Store(s2, d).(action := WithSuccess(s2.action))
      case Err(_) => s2.(action := WithError(s2.action, None))
    else
      s1.(action := WithError(s1.action, None))
  }

  // --------------------------------------------------------------- the machine

  /** One event. */
  function Step(s: State, e: Event): (r: Transition)
  {
    match e
    case FetchRequested => StartFetch(s)
    case FetchSettled(g, reply) => OnFetchSettled(s, g, reply)
    case FetchTimerFired(g) => OnFetchTimerFired(s, g)
    case CheckoutDeleteSettled(deleted) => OnCheckoutDeleteSettled(s, deleted)
    case VersionChecked(body) => Transition(OnVersionChecked(s, body), [])
    case ActionStarted(d) => Dispatch(s, d)
    case ActionSourceSet(source) => Transition(s.(action := WithSource(s.action, source)), [])
    case RetryRequested => OnRetry(s)
    case ActionEnded => Transition(s.(action := Empty), [])
    case MeetingCallSettled(call, refresh, fallback) =>
      Transition(OnMeetingCallSettled(s, call, refresh, fallback), [])
    case CrossRoomCallSettled(call, refresh) =>
      Transition(OnCrossRoomCallSettled(s, call, refresh), [])
    case AllCalendarsOpened => StartFetch(s.(showAllCalendars := true))
    case AllCalendarsClosed => Transition(s.(action := Empty, showAllCalendars := false), [])
    case DisconnectRequested => Transition(s, [Send(RemoveDevice)])
    case DisconnectSettled(removal) =>
      var s1 := Intercept(s, removal);
      Transition(if removal.Ok? then s1.(reloaded := true) else s1, [])
  }

  /** The small handlers: opening the all-calendars view sets its flag and
      fetches the expanded details, closing it ends the action and clears the
      flag, ending an action clears the slot, setting the source records it
      on the running action, and a disconnect asks the server to remove the
      device and reloads the page only once that succeeded. */
  lemma StepHandlesViewsAndDisconnect(s: State)
    ensures var r := Step(s, AllCalendarsOpened);
      && r.state.showAllCalendars
      && r.effects == [Fetch(s.latestGeneration + 1, true)]
      && Fresh(r.state, s.latestGeneration + 1)
    ensures var r := Step(s, AllCalendarsClosed);
      r.state.action == Empty && !r.state.showAllCalendars && r.effects == []
    ensures Step(s, ActionEnded) == Transition(s.(action := Empty), [])
    ensures forall source :: var r := Step(s, ActionSourceSet(source));
      && r.state.action.source == Some(source)
      && r.state.action.descriptor == s.action.descriptor
      && r.state.action.phase == s.action.phase
      && r.effects == []
    ensures Step(s, DisconnectRequested) == Transition(s, [Send(RemoveDevice)])
    ensures Step(s, DisconnectSettled(Ok(()))).state.reloaded
    ensures forall status :: Step(s, DisconnectSettled(Err(status))).state.reloaded == s.reloaded
  {
  }

  /** The running build never changes, and removal and the reload request
      are terminal: no event undoes them. */
  lemma StepKeepsTerminalFlags(s: State, e: Event)
    ensures var r := Step(s, e);
      && r.state.runningVersion == s.runningVersion
      && (s.removed ==> r.state.removed)
      && (s.reloaded ==> r.state.reloaded)
  {
    match e
    case FetchSettled(g, reply) =>
    case CheckoutDeleteSettled(deleted) =>
    case VersionChecked(body) =>
    case RetryRequested =>
    case MeetingCallSettled(call, refresh, fallback) =>
    case CrossRoomCallSettled(call, refresh) =>
    case DisconnectSettled(removal) =>
    case _ =>
  }

  /** Generations only grow, and they grow by exactly one when, and only
      when, a fetch is issued, which then carries the new generation: every
      new fetch supersedes all earlier ones. */
  lemma StepIssuesGenerationsInOrder(s: State, e: Event)
    ensures var r := Step(s, e);
      || (r.state.latestGeneration == s.latestGeneration + 1
          && r.effects == [Fetch(r.state.latestGeneration, r.state.showAllCalendars)])
      || (r.state.latestGeneration == s.latestGeneration
          && forall k :: 0 <= k < |r.effects| ==> !r.effects[k].Fetch?)
  {
    match e
    case FetchSettled(g, reply) =>
    case CheckoutDeleteSettled(deleted) =>
    case _ =>
  }

  /** Only the fetch holding the latest generation writes the device data
      and the language; the action handlers also store refreshed data. */
  lemma OnlyLatestFetchWritesData(s: State, e: Event)
    ensures var r := Step(s, e);
      && (r.state.language != s.language ==> e.FetchSettled? && Fresh(s, e.generation) && e.reply.Ok?)
      && (r.state.device != s.device ==>
            || (e.FetchSettled? && Fresh(s, e.generation))
            || e.MeetingCallSettled?
            || e.CrossRoomCallSettled?)
  {
    match e
    case FetchSettled(g, reply) =>
    case MeetingCallSettled(call, refresh, fallback) =>
    case CrossRoomCallSettled(call, refresh) =>
    case _ =>
  }

  /** A wait is only ever scheduled by the fetch it belongs to, and once the
      device is removed every wait is the removed-device delay. */
  lemma WaitsBelongToTheirFetch(s: State, e: Event)
    ensures var r := Step(s, e);
      && (forall k :: 0 <= k < |r.effects| && r.effects[k].Sleep? ==>
            e.FetchSettled? && r.effects[k].generation == e.generation)
      && (s.removed ==> forall k :: 0 <= k < |r.effects| && r.effects[k].Sleep? ==>
            r.effects[k].delay == Polling.RemovedDelay)
  {
    match e
    case FetchSettled(g, reply) =>
      var r := Step(s, e);
      if reply.Ok? && Fresh(s, g) {
        assert r.effects == CheckoutEffects(reply.value) + [Sleep(g, PollDelay(r.state))];
      }
    case _ =>
  }

  // ------------------------------------------------------------------- runs

  /** The state after a sequence of events. */
  function After(s: State, events: seq<Event>): State
    decreases |events|
  {
    if |events| == 0 then s
    else Step(After(s, events[..|events| - 1]), events[|events| - 1]).state
  }

  /** Along any run, generations never go back, removal is never undone and
      a requested reload stays requested. */
  lemma {:induction false} RunIsMonotone(s: State, events: seq<Event>)
    ensures After(s, events).latestGeneration >= s.latestGeneration
    ensures s.removed ==> After(s, events).removed
    ensures s.reloaded ==> After(s, events).reloaded
    decreases |events|
  {
    if |events| > 0 {
      var before := After(s, events[..|events| - 1]);
      RunIsMonotone(s, events[..|events| - 1]);
      StepKeepsTerminalFlags(before, events[|events| - 1]);
      StepIssuesGenerationsInOrder(before, events[|events| - 1]);
    }
  }

  /** Once fetch `g` is stale it stays stale for the rest of any run: when
      its device details arrive they leave the device data, the language,
      the cancelled and removed flags alone and schedule nothing (the build
      check and the offline interceptor still run), and when its wait ends
      it does not start another cycle. Only the latest fetch keeps the loop
      alive. */
  lemma StaleFetchStaysVoid(s: State, events: seq<Event>, g: nat)
    requires g < s.latestGeneration
    ensures forall i :: 0 <= i < |events| ==>
      var before := After(s, events[..i]);
      var r := Step(before, events[i]);
      && (events[i] == FetchTimerFired(g) ==> r == Transition(before, []))
      && !Fresh(before, g)
      && (events[i].FetchSettled? && events[i].generation == g && events[i].reply.Ok? ==>
            && r.effects == []
            && r.state.device == before.device
            && r.state.language == before.language
            && r.state.subscriptionCancelled == before.subscriptionCancelled
            && r.state.removed == before.removed)
  {
    forall i | 0 <= i < |events|
      ensures !Fresh(After(s, events[..i]), g)
    {
      RunIsMonotone(s, events[..i]);
    }
  }
}
