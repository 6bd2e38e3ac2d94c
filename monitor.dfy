/**
 * The real-time monitor: the header and stat-card figures computed from the
 * live driver list, and the per-card attention bar.
 */
module RealTimeMonitor {
  import opened DriverTypes
  import opened Seqs
  import opened Bands

  /** `activeDrivers`: the on-duty drivers, in list order. Both the header badge and the stat card show its length. */
  function ActiveDrivers(drivers: seq<Driver>): (active: seq<Driver>)
    ensures forall d :: d in active <==> d in drivers && d.isOnDuty
    ensures IsSubsequence(active, drivers) && |active| <= |drivers|
  {
    FilterIsSubsequence(IsOnDuty, drivers);
    Filter(IsOnDuty, drivers)
  }

  predicate IsCritical(d: Driver)
  {
    d.attentionLevel == Critico
  }

  /** `criticalDrivers`: exactly the drivers whose attention level is "critico". */
  function CriticalDrivers(drivers: seq<Driver>): (critical: seq<Driver>)
    ensures forall d :: d in critical <==> d in drivers && d.attentionLevel == Critico
    ensures IsSubsequence(critical, drivers) && |critical| <= |drivers|
  {
    FilterIsSubsequence(IsCritical, drivers);
    Filter(IsCritical, drivers)
  }

  /** The alert card (`criticalDrivers.length > 0`) appears exactly when some driver is critical. */
  function ShowsCriticalAlert(drivers: seq<Driver>): (shown: bool)
    ensures shown <==> exists d :: d in drivers && d.attentionLevel == Critico
  {
    var critical := CriticalDrivers(drivers);
    assert critical != [] ==> critical[0] in critical;
    |critical| > 0
  }

  /** A route is active when `currentRoute` is truthy: present and not the empty string. */
  predicate HasRoute(d: Driver)
  {
    d.currentRoute.Some? && d.currentRoute.value != ""
  }

  /** The "Rutas Activas" card: `drivers.filter((d) => d.currentRoute).length`. */
  function ActiveRouteCount(drivers: seq<Driver>): (n: nat)
    ensures n <= |drivers|
  {
    |Filter(HasRoute, drivers)|
  }

  /** Each driver adds one to the route count exactly when it has a route. */
  lemma ActiveRouteCountAppend(drivers: seq<Driver>, d: Driver)
    ensures ActiveRouteCount([]) == 0
    ensures ActiveRouteCount(drivers + [d]) == ActiveRouteCount(drivers) + (if HasRoute(d) then 1 else 0)
  {
    FilterAppend(HasRoute, drivers, [d]);
    assert Filter(HasRoute, [d]) == (if HasRoute(d) then [d] else []) by {
      assert [d][1..] == [];
    }
  }

  function AttentionScores(drivers: seq<Driver>): seq<real>
  {
    seq(|drivers|, i requires 0 <= i < |drivers| => drivers[i].attentionScore)
  }

  /** `averageAttention`: the rounded mean attention score, `None` for the NaN of an empty list. */
  function AverageAttention(drivers: seq<Driver>): (avg: Option<int>)
    ensures avg.Some? <==> |drivers| > 0
  {
    RoundedMean(AttentionScores(drivers))
  }

  /** The average shown lies between the rounded lowest and highest attention scores. */
  lemma AverageAttentionWithinScores(drivers: seq<Driver>)
    requires |drivers| > 0
    ensures Round(MinOf(AttentionScores(drivers))) <= AverageAttention(drivers).value
            <= Round(MaxOf(AttentionScores(drivers)))
  {
    RoundedMeanWithinExtremes(AttentionScores(drivers));
  }

  /** The attention bar's nested conditional, which uses the thresholds of `getScoreColor`. */
  function AttentionBarBand(attentionScore: real): (b: Band)
    ensures b == ScoreBand(attentionScore)
  {
    if attentionScore >= 80.0 then Green
    else if attentionScore >= 60.0 then Yellow
    else Red
  }
}
