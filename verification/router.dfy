/** The device's top-level view selection: a strict first-match choice of
    one view from the status flags. */
module Router {
  import opened Common
  import opened Priority
  import Device

  /** The action a view's button performs. */
  datatype Command = DisconnectDevice

  datatype FatalKind = UnableToConnect | DeviceDisconnected | SubscriptionCancelled

  datatype View =
    | FatalError(kind: FatalKind, onClick: Option<Command>)
    | Dashboard
    | AllCalendars
    | SingleCalendar
    | NoCalendar
    | ConnectionCode(code: string)

  /** The router's inputs. `connected` and `connectionCode` are the selector
      values for the pairing flow, taken as given. */
  datatype Inputs = Inputs(
    offline: bool,
    removed: bool,
    subscriptionCancelled: bool,
    dashboard: bool,
    showAllCalendars: bool,
    calendarSelected: bool,
    connected: bool,
    connectionCode: Option<string>)

  /** A connection code is shown only when it is a non-empty string. */
  predicate HasConnectionCode(i: Inputs) {
    i.connectionCode.Some? && i.connectionCode.value != ""
  }

  /** None of the status flags that select a view is set. */
  predicate NoStatus(i: Inputs) {
    !i.offline && !i.removed && !i.subscriptionCancelled && !i.dashboard
    && !i.showAllCalendars && !i.calendarSelected && !i.connected
  }

  /** The view shown, `None` when nothing is rendered. */
  function Route(i: Inputs): (r: Option<View>)
    ensures i.offline ==> r == Some(FatalError(UnableToConnect, None))
    ensures !i.offline && i.removed ==> r == Some(FatalError(DeviceDisconnected, Some(DisconnectDevice)))
    ensures !i.offline && !i.removed && i.subscriptionCancelled ==> r == Some(FatalError(SubscriptionCancelled, None))
    ensures r == Some(Dashboard) <==>
      !i.offline && !i.removed && !i.subscriptionCancelled && i.dashboard
    ensures r == Some(AllCalendars) <==>
      !i.offline && !i.removed && !i.subscriptionCancelled && !i.dashboard && i.showAllCalendars
    ensures r == Some(SingleCalendar) <==>
      !i.offline && !i.removed && !i.subscriptionCancelled && !i.dashboard && !i.showAllCalendars
      && i.calendarSelected
    ensures r == Some(NoCalendar) <==>
      !i.offline && !i.removed && !i.subscriptionCancelled && !i.dashboard && !i.showAllCalendars
      && !i.calendarSelected && i.connected
    ensures (r.Some? && r.value.ConnectionCode?) <==> NoStatus(i) && HasConnectionCode(i)
    ensures r.Some? && r.value.ConnectionCode? ==> i.connectionCode == Some(r.value.code)
    ensures r.None? <==> NoStatus(i) && !HasConnectionCode(i)
  {
    if i.offline then Some(FatalError(UnableToConnect, None))
    else if i.removed then Some(FatalError(DeviceDisconnected, Some(DisconnectDevice)))
    else if i.subscriptionCancelled then Some(FatalError(SubscriptionCancelled, None))
    else if i.dashboard then Some(Dashboard)
    else if i.showAllCalendars then Some(AllCalendars)
    else if i.calendarSelected then Some(SingleCalendar)
    else if i.connected then Some(NoCalendar)
    else if HasConnectionCode(i) then Some(ConnectionCode(i.connectionCode.value))
    else None
  }

  /** The routing table, one rule per line of the router, in order. */
  function Rules(i: Inputs): seq<Rule<View>> {
    [ Rule(i.offline, FatalError(UnableToConnect, None)),
      Rule(i.removed, FatalError(DeviceDisconnected, Some(DisconnectDevice))),
      Rule(i.subscriptionCancelled, FatalError(SubscriptionCancelled, None)),
      Rule(i.dashboard, Dashboard),
      Rule(i.showAllCalendars, AllCalendars),
      Rule(i.calendarSelected, SingleCalendar),
      Rule(i.connected, NoCalendar),
      Rule(HasConnectionCode(i), ConnectionCode(if i.connectionCode.Some? then i.connectionCode.value else "")) ]
  }

  /** `v` is an admissible outcome for `i`: the view of the first rule that
      applies, or nothing when no rule applies. */
  ghost predicate Admissible(i: Inputs, v: Option<View>) {
    || (v.None? && NoneHolds(Rules(i)))
    || (exists k :: FirstHolding(Rules(i), k) && v == Some(Rules(i)[k].outcome))
  }

  /** The router is the table's first match. */
  lemma RouteFollowsRuleTable(i: Inputs)
    ensures Route(i) == FirstMatch(Rules(i))
  {
    var rules := Rules(i);
    match FirstMatch(rules)
    case None =>
      assert !rules[0].guard && !rules[1].guard && !rules[2].guard && !rules[3].guard;
      assert !rules[4].guard && !rules[5].guard && !rules[6].guard && !rules[7].guard;
    case Some(v) =>
      var k :| FirstHolding(rules, k) && rules[k].outcome == v;
      if k == 0 {
      } else if k == 1 {
        assert !rules[0].guard;
      } else if k == 2 {
        assert !rules[0].guard && !rules[1].guard;
      } else if k == 3 {
        assert !rules[0].guard && !rules[1].guard && !rules[2].guard;
      } else if k == 4 {
        assert !rules[0].guard && !rules[1].guard && !rules[2].guard && !rules[3].guard;
      } else if k == 5 {
        assert !rules[0].guard && !rules[1].guard && !rules[2].guard && !rules[3].guard;
        assert !rules[4].guard;
      } else if k == 6 {
        assert !rules[0].guard && !rules[1].guard && !rules[2].guard && !rules[3].guard;
        assert !rules[4].guard && !rules[5].guard;
      } else {
        assert !rules[0].guard && !rules[1].guard && !rules[2].guard && !rules[3].guard;
        assert !rules[4].guard && !rules[5].guard && !rules[6].guard;
      }
  }

  /** The router is total and deterministic: its result is admissible, and
      it is the only admissible outcome for the inputs. */
  lemma RouteIsTheOnlyAdmissibleView(i: Inputs, v: Option<View>)
    ensures Admissible(i, Route(i))
    ensures Admissible(i, v) ==> v == Route(i)
  {
    var rules := Rules(i);
    RouteFollowsRuleTable(i);
    if Admissible(i, v) {
      if k :| FirstHolding(rules, k) && v == Some(rules[k].outcome) {
        var m :| FirstHolding(rules, m) && rules[m].outcome == Route(i).value;
        FirstHoldingIsUnique(rules, k, m);
      }
    }
  }

  /** The router's inputs read from the device state; the pairing selectors
      are given. */
  function InputsOf(s: Device.State, connected: bool, connectionCode: Option<string>): Inputs {
    Inputs(
      s.offline,
      s.removed,
      s.subscriptionCancelled,
      s.device.Some? && s.device.value.isDashboard,
      s.showAllCalendars,
      s.device.Some? && s.device.value.isCalendarSelected,
      connected,
      connectionCode)
  }

  /** A device-details fetch that the server answers with 404, fresh or
      stale, leaves the device on the disconnected screen with its
      disconnect button, unless the device is offline. */
  lemma NotFoundShowsDisconnectScreen(s: Device.State, g: nat, connected: bool, code: Option<string>)
    requires !s.offline
    ensures var r := Device.Step(s, Device.FetchSettled(g, Err(Some(404))));
      Route(InputsOf(r.state, connected, code)) == Some(FatalError(DeviceDisconnected, Some(DisconnectDevice)))
  {
  }

  /** A device-details fetch that gets no response shows the offline screen. */
  lemma NetworkLossShowsOfflineScreen(s: Device.State, g: nat, connected: bool, code: Option<string>)
    ensures var r := Device.Step(s, Device.FetchSettled(g, Err(None)));
      Route(InputsOf(r.state, connected, code)) == Some(FatalError(UnableToConnect, None))
  {
  }
}
