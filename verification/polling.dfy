/** The delay before the device sync loop polls again. */
module Polling {
  import opened Common
  import opened Priority

  /** Millisecond constants, as the `ms` package spells them. */
  const Second: nat := 1000
  const Minute: nat := 60 * Second
  /** `ms("1 year")`: the package counts a year as 365.25 days. */
  const Year: nat := 31_557_600_000

  /** Removed device: polling practically stops. */
  const RemovedDelay: nat := Year
  /** Subscription cancelled: poll rarely. */
  const CancelledDelay: nat := 10 * Minute
  /** Dashboard device or a selected calendar: a relaxed cadence. */
  const RelaxedDelay: nat := 30 * Second
  /** Everything else (connection flow, no calendar yet). */
  const BusyDelay: nat := 5 * Second

  /** The delay chosen from the device's current flags, first match wins:
      removed, then cancelled, then dashboard or calendar selected. */
  function Delay(removed: bool, cancelled: bool, dashboard: bool, calendarSelected: bool): (r: nat)
    ensures r == RemovedDelay <==> removed
    ensures r == CancelledDelay <==> !removed && cancelled
    ensures r == RelaxedDelay <==> !removed && !cancelled && (dashboard || calendarSelected)
    ensures r == BusyDelay <==> !removed && !cancelled && !dashboard && !calendarSelected
    ensures BusyDelay <= r <= RemovedDelay
  {
    if removed then RemovedDelay
    else if cancelled then CancelledDelay
    else if dashboard || calendarSelected then RelaxedDelay
    else BusyDelay
  }

  /** The priority table behind `Delay`, one rule per line of the source. */
  function DelayRules(removed: bool, cancelled: bool, dashboard: bool, calendarSelected: bool): seq<Rule<nat>> {
    [ Rule(removed, RemovedDelay),
      Rule(cancelled, CancelledDelay),
      Rule(dashboard || calendarSelected, RelaxedDelay) ]
  }

  /** `Delay` is the first applicable rule of the table, falling back to the
      busy cadence when none applies. */
  lemma DelayFollowsRuleTable(removed: bool, cancelled: bool, dashboard: bool, calendarSelected: bool)
    ensures Delay(removed, cancelled, dashboard, calendarSelected)
         == match FirstMatch(DelayRules(removed, cancelled, dashboard, calendarSelected))
            case Some(d) => d
            case None => BusyDelay
  {
    var rules := DelayRules(removed, cancelled, dashboard, calendarSelected);
    match FirstMatch(rules)
    case Some(d) =>
      var i :| FirstHolding(rules, i) && rules[i].outcome == d;
    case None =>
      assert !rules[0].guard && !rules[1].guard && !rules[2].guard;
  }
}
