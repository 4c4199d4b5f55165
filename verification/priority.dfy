/** Strict first-match rule tables: the shape shared by the polling-delay
    choice and the view router. A table is an ordered list of guarded
    outcomes; the first rule whose guard holds decides. */
module Priority {
  import opened Common

  datatype Rule<+T> = Rule(guard: bool, outcome: T)

  /** `i` is the position of the first rule whose guard holds. */
  ghost predicate FirstHolding<T>(rules: seq<Rule<T>>, i: int) {
    && 0 <= i < |rules|
    && rules[i].guard
    && forall j :: 0 <= j < i ==> !rules[j].guard
  }

  /** No rule of the table applies. */
  ghost predicate NoneHolds<T>(rules: seq<Rule<T>>) {
    forall i :: 0 <= i < |rules| ==> !rules[i].guard
  }

  /** The outcome of the first applicable rule, if any. */
  function FirstMatch<T>(rules: seq<Rule<T>>): (r: Option<T>)
    ensures r.None? <==> NoneHolds(rules)
    ensures r.Some? ==> exists i :: FirstHolding(rules, i) && rules[i].outcome == r.value
  {
    if |rules| == 0 then None
    else if rules[0].guard then
      assert FirstHolding(rules, 0);
      Some(rules[0].outcome)
    else
      var r := FirstMatch(rules[1..]);
      assert r.Some? ==> exists i :: FirstHolding(rules, i) && rules[i].outcome == r.value by {
        if r.Some? {
          var k :| FirstHolding(rules[1..], k) && rules[1..][k].outcome == r.value;
          assert FirstHolding(rules, k + 1);
        }
      }
      r
  }

  /** At most one position is the first applicable one, so a table selects
      at most one outcome: the selection is deterministic. */
  lemma FirstHoldingIsUnique<T>(rules: seq<Rule<T>>, i: int, j: int)
    requires FirstHolding(rules, i) && FirstHolding(rules, j)
    ensures i == j
  {
  }
}
