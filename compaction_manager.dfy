/** The compaction manager: a registry of strategies by name, the selected
    strategy, and per-strategy counters of compaction attempts. */
module Manager {
  import opened Wrappers
  import opened CompactionBase

  /** `CompactionMetrics`; durations and clock readings are seconds as exact
      rationals. */
  datatype CompactionMetrics = CompactionMetrics(
    strategyName: string,
    successCount: int,
    failureCount: int,
    totalTokensSaved: int,
    totalDuration: real,
    lastCompactionTime: Option<real>)

  /** A freshly made record: every counter zero and no compaction time. */
  function FreshMetrics(name: string): (m: CompactionMetrics)
    ensures m.strategyName == name && m.successCount == 0 && m.failureCount == 0
    ensures m.totalTokensSaved == 0 && m.totalDuration == 0.0 && m.lastCompactionTime == None
  {
    CompactionMetrics(name, 0, 0, 0, 0.0, None)
  }

  /** `success_rate`: successes over attempts, 0 with no attempts. */
  function SuccessRate(m: CompactionMetrics): (r: real)
    requires m.successCount >= 0 && m.failureCount >= 0
    ensures 0.0 <= r <= 1.0
    ensures m.successCount + m.failureCount == 0 ==> r == 0.0
    ensures r == 1.0 <==> m.successCount > 0 && m.failureCount == 0
    ensures r == 0.0 <==> m.successCount == 0
  {
    var total := m.successCount + m.failureCount;
    if total > 0 then
      var q := (m.successCount as real) / (total as real);
      assert q * (total as real) == m.successCount as real;
      q
    else 0.0
  }

  /** `avg_duration`: total duration over successes, 0 with no successes
      (failed attempts add to the total but not to the divisor). */
  function AvgDuration(m: CompactionMetrics): (r: real)
    ensures m.successCount > 0 ==> r * (m.successCount as real) == m.totalDuration
    ensures m.successCount <= 0 ==> r == 0.0
  {
    if m.successCount > 0 then m.totalDuration / (m.successCount as real) else 0.0
  }

  /** The counters after one attempt that took `duration` seconds and ended
      at clock reading `now`. */
  function Recorded(m: CompactionMetrics, success: bool, tokensSaved: int, duration: real, now: real)
    : (r: CompactionMetrics)
    ensures r.strategyName == m.strategyName
    ensures success ==> r.successCount == m.successCount + 1 && r.failureCount == m.failureCount
                        && r.totalTokensSaved == m.totalTokensSaved + tokensSaved
    ensures !success ==> r.successCount == m.successCount && r.failureCount == m.failureCount + 1
                         && r.totalTokensSaved == m.totalTokensSaved
    ensures r.totalDuration == m.totalDuration + duration && r.lastCompactionTime == Some(now)
  {
    if success then
      m.(successCount := m.successCount + 1, totalTokensSaved := m.totalTokensSaved + tokensSaved,
         totalDuration := m.totalDuration + duration, lastCompactionTime := Some(now))
    else
      m.(failureCount := m.failureCount + 1,
         totalDuration := m.totalDuration + duration, lastCompactionTime := Some(now))
  }

  /** A recorded success never lowers the success rate, and a recorded
      failure never raises it. */
  lemma RecordedRate(m: CompactionMetrics, success: bool, tokensSaved: int, duration: real, now: real)
    requires m.successCount >= 0 && m.failureCount >= 0
    ensures var r := Recorded(m, success, tokensSaved, duration, now);
      if success then SuccessRate(r) >= SuccessRate(m) else SuccessRate(r) <= SuccessRate(m)
  {
    var r := Recorded(m, success, tokensSaved, duration, now);
    var s, f := m.successCount as real, m.failureCount as real;
    if s + f > 0.0 {
      if success {
        assert SuccessRate(r) == (s + 1.0) / (s + f + 1.0);
        assert (s + 1.0) * (s + f) >= s * (s + f + 1.0);
        RatioMonotone(s, s + f, s + 1.0, s + f + 1.0);
      } else {
        assert SuccessRate(r) == s / (s + f + 1.0);
        RatioMonotone(s, s + f + 1.0, s, s + f);
      }
    }
  }

  /** `a / b <= c / d` for positive denominators when `a * d <= c * b`. */
  lemma RatioMonotone(a: real, b: real, c: real, d: real)
    requires b > 0.0 && d > 0.0 && a * d <= c * b
    ensures a / b <= c / d
  {
    var x, y := a / b, c / d;
    assert x * b == a && y * d == c;
    assert x * b * d <= y * d * b;
  }

  /** Python truthiness of an optional name: None and "" are false. */
  predicate Truthy(name: Option<string>) {
    name.Some? && name.value != ""
  }

  /** `a or b` on optional names. */
  function Or(a: Option<string>, b: Option<string>): (r: Option<string>)
    ensures Truthy(a) ==> r == a
    ensures !Truthy(a) ==> r == b
  {
    if Truthy(a) then a else b
  }

  /** `CompactionManager`. A strategy is known to the manager by its
      metadata; what it answers to `should_compact` and `compact` is given to
      `CheckAndCompact` by the caller. */
  class CompactionManager {
    var strategies: map<string, StrategyMetadata>
    var currentStrategy: Option<string>
    var metrics: map<string, CompactionMetrics>

    /** Every registered strategy has a metrics record; a selected strategy
        is registered; counters are never negative. */
    predicate Valid()
      reads this
    {
      strategies.Keys <= metrics.Keys
      && (currentStrategy.Some? ==> currentStrategy.value in strategies)
      && forall n :: n in metrics ==> metrics[n].successCount >= 0 && metrics[n].failureCount >= 0
    }

    constructor ()
      ensures Valid()
      ensures strategies == map[] && metrics == map[] && currentStrategy == None
    {
      strategies, metrics, currentStrategy := map[], map[], None;
    }

    /** `register_strategy`: stores the strategy and a fresh record under
        the name, replacing any earlier ones. */
    method RegisterStrategy(name: string, strategy: StrategyMetadata)
      requires Valid()
      modifies this
      ensures Valid()
      ensures strategies == old(strategies)[name := strategy]
      ensures metrics == old(metrics)[name := FreshMetrics(name)]
      ensures currentStrategy == old(currentStrategy)
    {
      strategies := strategies[name := strategy];
      metrics := metrics[name := FreshMetrics(name)];
    }

    /** `set_strategy`: selects a registered strategy; an unknown name is a
        ValueError and changes nothing. */
    method SetStrategy(name: string) returns (r: Result<()>)
      requires Valid()
      modifies this
      ensures Valid()
      ensures r.Ok? <==> name in strategies
      ensures r.Ok? ==> currentStrategy == Some(name)
      ensures r.Err? ==> currentStrategy == old(currentStrategy)
      ensures strategies == old(strategies) && metrics == old(metrics)
    {
      if name !in strategies {
        return Err("strategy '" + name + "' does not exist");
      }
      currentStrategy := Some(name);
      return Ok(());
    }

    /** `get_strategy`: the named strategy, or the selected one when no
        (non-empty) name is given; a ValueError when neither names a
        strategy. */
    function GetStrategy(name: Option<string>): (r: Result<StrategyMetadata>)
      reads this
      ensures var n := Or(name, currentStrategy);
        r.Ok? <==> Truthy(n) && n.value in strategies
      ensures r.Ok? ==> r.value == strategies[Or(name, currentStrategy).value]
    {
      var n := Or(name, currentStrategy);
      if !Truthy(n) then Err("no strategy selected")
      else if n.value !in strategies then Err("strategy '" + n.value + "' does not exist")
      else Ok(strategies[n.value])
    }

    /** `_record_compaction`: counts one attempt for the strategy, creating
        its record first if there is none. */
    method RecordCompaction(name: string, success: bool, tokensSaved: int, duration: real, now: real)
      requires Valid()
      modifies this
      ensures Valid()
      ensures var before := if name in old(metrics) then old(metrics)[name] else FreshMetrics(name);
        metrics == old(metrics)[name := Recorded(before, success, tokensSaved, duration, now)]
      ensures strategies == old(strategies) && currentStrategy == old(currentStrategy)
    {
      if name !in metrics {
        metrics := metrics[name := FreshMetrics(name)];
      }
      var metric := metrics[name];
      metrics := metrics[name := Recorded(metric, success, tokensSaved, duration, now)];
    }

    /** `check_and_compact`. `shouldCompact` is the strategy's answer to
        `should_compact`, `outcome` what its `compact` returns or the
        exception it raises, `duration` the time the call took and `now` the
        clock after it. Not forced and not needed: nothing happens and the
        answer is None. Otherwise the attempt is counted (an exception as a
        failure with no tokens saved) and the result returned or the
        exception passed on. */
    method CheckAndCompact(ctx: CompactionContext, force: bool, shouldCompact: bool,
                           outcome: Result<CompactResult>, duration: real, now: real)
      returns (r: Result<Option<CompactResult>>)
      requires Valid()
      modifies this
      ensures Valid()
      ensures strategies == old(strategies) && currentStrategy == old(currentStrategy)
      ensures old(GetStrategy(None)).Err? ==> r.Err? && metrics == old(metrics)
      ensures old(GetStrategy(None)).Ok? && !force && !shouldCompact ==> r == Ok(None) && metrics == old(metrics)
      ensures old(GetStrategy(None)).Ok? && (force || shouldCompact) ==>
        var name := old(currentStrategy).value;
        var success := outcome.Ok? && outcome.value.success;
        var saved := if outcome.Ok? then outcome.value.tokensSaved else 0;
        metrics == old(metrics)[name := Recorded(old(metrics)[name], success, saved, duration, now)]
        && (outcome.Ok? ==> r == Ok(Some(outcome.value)))
        && (outcome.Err? ==> r == Err(outcome.error))
    {
      var strategy := GetStrategy(None);
      if strategy.Err? {
        return Err(strategy.error);
      }
      if !force && !shouldCompact {
        return Ok(None);
      }
      var name := currentStrategy.value;
      if outcome.Err? {
        RecordCompaction(name, false, 0, duration, now);
        return Err(outcome.error);
      }
      var result := outcome.value;
      RecordCompaction(name, result.success, result.tokensSaved, duration, now);
      return Ok(Some(result));
    }

    /** `get_metrics`: the record of the named (or selected) strategy, or a
        fresh zero record, not stored, when there is none. */
    function GetMetrics(name: Option<string>): (m: CompactionMetrics)
      reads this
      ensures var n := Or(name, currentStrategy);
        Truthy(n) && n.value in metrics ==> m == metrics[n.value]
      ensures var n := Or(name, currentStrategy);
        !(Truthy(n) && n.value in metrics) ==>
          m == FreshMetrics(if Truthy(n) then n.value else "unknown")
    {
      var n := Or(name, currentStrategy);
      if !Truthy(n) || n.value !in metrics then FreshMetrics(if Truthy(n) then n.value else "unknown")
      else metrics[n.value]
    }
  }
}
