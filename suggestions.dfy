/**
 * The distance-suggestions view: a suitability score for each (driver,
 * distance) pair, and the five best on-duty drivers for a distance.
 */
module DistanceSuggestions {
  import opened DriverTypes
  import opened Seqs
  import opened Bands

  datatype DistanceCategory = Corta | Media | Larga

  /** `getDistanceCategory`: both boundaries (50 and 200 km) fall into the shorter category. */
  function CategoryOf(distance: real): (c: DistanceCategory)
    ensures c == Corta <==> distance <= 50.0
    ensures c == Media <==> 50.0 < distance <= 200.0
    ensures c == Larga <==> 200.0 < distance
  {
    if distance <= 50.0 then Corta
    else if distance <= 200.0 then Media
    else Larga
  }

  /** Experience points: 30 for experto, 20 for intermedio, 10 for anything else. */
  function ExperienceBonus(e: ExperienceLevel): real
  {
    if e == Experto then 30.0
    else if e == Intermedio then 20.0
    else 10.0
  }

  /**
   * Duty-hours penalty. The source first tests `hoursOnDuty` for
   * truthiness, so an absent value and 0 both skip the thresholds.
   */
  function HoursPenalty(hours: Option<real>): (p: real)
    ensures p == 20.0 <==> hours.Some? && hours.value > 8.0
    ensures p == 10.0 <==> hours.Some? && 6.0 < hours.value <= 8.0
    ensures p == 0.0 <==> hours.None? || hours.value <= 6.0
  {
    match hours
    case None => 0.0
    case Some(h) =>
      if h != 0.0 then
        if h > 8.0 then 20.0
        else if h > 6.0 then 10.0
        else 0.0
      else 0.0
  }

  /** More hours on duty never lower the penalty. */
  lemma HoursPenaltyMonotone(h1: real, h2: real)
    requires h1 <= h2
    ensures HoursPenalty(Some(h1)) <= HoursPenalty(Some(h2))
    ensures HoursPenalty(None) == HoursPenalty(Some(0.0)) == 0.0
  {
  }

  /**
   * Distance adjustment: 15 off for a novice on a long trip, 25 off for a
   * critical-attention driver on a short one. The two tests are independent
   * `if`s, but no call can meet both.
   */
  function DistancePenalty(c: DistanceCategory, e: ExperienceLevel, a: AttentionLevel): (p: real)
    ensures p == 15.0 <==> c == Larga && e == Novato
    ensures p == 25.0 <==> c == Corta && a == Critico
    ensures p == 0.0 <==> !(c == Larga && e == Novato) && !(c == Corta && a == Critico)
    ensures p == 0.0 || p == 15.0 || p == 25.0
  {
    (if c == Larga && e == Novato then 15.0 else 0.0)
    + (if c == Corta && a == Critico then 25.0 else 0.0)
  }

  /** The score before the final clamp; intermediate values may leave [0, 100]. */
  function RawScore(d: Driver, distance: real): real
  {
    d.attentionScore * 0.4
    + ExperienceBonus(d.experienceLevel)
    - d.fatigueLevel * 0.3
    - HoursPenalty(d.hoursOnDuty)
    - DistancePenalty(CategoryOf(distance), d.experienceLevel, d.attentionLevel)
  }

  /** `Math.max(0, Math.min(100, x))`. */
  function Clamp(x: real): (r: real)
    ensures 0.0 <= r <= 100.0
    ensures 0.0 <= x <= 100.0 ==> r == x
    ensures x < 0.0 ==> r == 0.0
    ensures 100.0 < x ==> r == 100.0
  {
    var upper := if 100.0 < x then 100.0 else x;
    if 0.0 > upper then 0.0 else upper
  }

  lemma ClampMonotone(x: real, y: real)
    requires x <= y
    ensures Clamp(x) <= Clamp(y)
  {
  }

  /** The specification of `getDriverSuitability`: one clamp, after every term. */
  function Suitability(d: Driver, distance: real): (r: real)
    ensures 0.0 <= r <= 100.0
    ensures 0.0 <= RawScore(d, distance) <= 100.0 ==> r == RawScore(d, distance)
  {
    Clamp(RawScore(d, distance))
  }

  /** `getDriverSuitability`, accumulating into `score` term by term as the source does. */
  method DriverSuitability(driver: Driver, distance: real) returns (score: real)
    ensures 0.0 <= score <= 100.0
    ensures score == Suitability(driver, distance)
  {
    var category := CategoryOf(distance);
    score := 0.0;

    score := score + driver.attentionScore * 0.4;

    if driver.experienceLevel == Experto {
      score := score + 30.0;
    } else if driver.experienceLevel == Intermedio {
      score := score + 20.0;
    } else {
      score := score + 10.0;
    }

    score := score - driver.fatigueLevel * 0.3;

    if driver.hoursOnDuty.Some? && driver.hoursOnDuty.value != 0.0 {
      if driver.hoursOnDuty.value > 8.0 {
        score := score - 20.0;
      } else if driver.hoursOnDuty.value > 6.0 {
        score := score - 10.0;
      }
    }

    if category == Larga && driver.experienceLevel == Novato {
      score := score - 15.0;
    }
    if category == Corta && driver.attentionLevel == Critico {
      score := score - 25.0;
    }

    var capped := if 100.0 < score then 100.0 else score;
    score := if 0.0 > capped then 0.0 else capped;
  }

  /** Holding everything else fixed, a higher attention score never lowers suitability. */
  lemma SuitabilityMonotoneInAttention(d: Driver, attention: real, distance: real)
    requires d.attentionScore <= attention
    ensures Suitability(d, distance) <= Suitability(d.(attentionScore := attention), distance)
  {
    ClampMonotone(RawScore(d, distance), RawScore(d.(attentionScore := attention), distance));
  }

  /** Holding everything else fixed, a higher fatigue level never raises suitability. */
  lemma SuitabilityAntitoneInFatigue(d: Driver, fatigue: real, distance: real)
    requires d.fatigueLevel <= fatigue
    ensures Suitability(d.(fatigueLevel := fatigue), distance) <= Suitability(d, distance)
  {
    ClampMonotone(RawScore(d.(fatigueLevel := fatigue), distance), RawScore(d, distance));
  }

  /** A driver record with only the fields the score reads set. */
  function ScoringDriver(attention: real, level: AttentionLevel, experience: ExperienceLevel,
                         fatigue: real, hours: Option<real>): Driver
  {
    Driver("", "", "", level, attention, fatigue, [], "", "", "", 0.0, experience, 0.0, "", 0.0,
           None, None, true, None, hours)
  }

  /** Two worked examples: 36 + 30 - 3 = 63 at 50 km; 16 + 10 - 24 - 20 - 15 < 0 clamps to 0 at 500 km. */
  lemma SuitabilityExamples()
    ensures Suitability(ScoringDriver(90.0, Optimo, Experto, 10.0, Some(3.0)), 50.0) == 63.0
    ensures Suitability(ScoringDriver(40.0, Moderado, Novato, 80.0, Some(9.0)), 500.0) == 0.0
    ensures Suitability(ScoringDriver(40.0, Critico, Novato, 80.0, Some(9.0)), 50.0) == 0.0
  {
  }

  // ---------------------------------------------------------------------
  // Ranking
  // ---------------------------------------------------------------------

  /** The `{ ...driver, suitabilityScore }` object the ranking builds. */
  datatype SuggestedDriver = SuggestedDriver(driver: Driver, suitabilityScore: real)

  const SuggestionLimit: nat := 5

  /** `map((driver) => ({ ...driver, suitabilityScore: getDriverSuitability(driver, maxDistance) }))`. */
  function ScoreEach(drivers: seq<Driver>, maxDistance: real): seq<SuggestedDriver>
  {
    seq(|drivers|, i requires 0 <= i < |drivers| =>
      SuggestedDriver(drivers[i], Suitability(drivers[i], maxDistance)))
  }

  /** The scored on-duty drivers, in input order: what the sort receives. */
  function Candidates(drivers: seq<Driver>, maxDistance: real): seq<SuggestedDriver>
  {
    ScoreEach(Filter(IsOnDuty, drivers), maxDistance)
  }

  predicate SortedByScore(s: seq<SuggestedDriver>)
  {
    forall i, j :: 0 <= i < j < |s| ==> s[i].suitabilityScore >= s[j].suitabilityScore
  }

  /**
   * Places `x` before the first entry of `s` that does not outscore it, so `x`
   * precedes the entries of equal score that came after it in the input.
   */
  function Insert(x: SuggestedDriver, s: seq<SuggestedDriver>): seq<SuggestedDriver>
  {
    if s == [] || x.suitabilityScore >= s[0].suitabilityScore then [x] + s
    else [s[0]] + Insert(x, s[1..])
  }

  /**
   * `sort((a, b) => b.suitabilityScore - a.suitabilityScore)`: descending by
   * score and stable, as `Array.prototype.sort` is.
   */
  function SortByScore(s: seq<SuggestedDriver>): seq<SuggestedDriver>
  {
    if s == [] then [] else Insert(s[0], SortByScore(s[1..]))
  }

  /** Inserting adds exactly `x` to the entries. */
  lemma {:induction false} InsertPermutation(x: SuggestedDriver, s: seq<SuggestedDriver>)
    ensures multiset(Insert(x, s)) == multiset(s) + multiset{x}
  {
    if s == [] || x.suitabilityScore >= s[0].suitabilityScore {
      assert Insert(x, s) == [x] + s;
    } else {
      var head, tail := s[0], s[1..];
      InsertPermutation(x, tail);
      assert Insert(x, s) == [head] + Insert(x, tail);
      assert s == [head] + tail;
      calc {
        multiset(Insert(x, s));
        multiset([head]) + multiset(Insert(x, tail));
        multiset([head]) + multiset(tail) + multiset{x};
        multiset(s) + multiset{x};
      }
    }
  }

  /** In a descending list no entry outscores the first one. */
  lemma HeadOutscoresRest(s: seq<SuggestedDriver>, e: SuggestedDriver)
    requires SortedByScore(s) && s != [] && e in multiset(s[1..])
    ensures e.suitabilityScore <= s[0].suitabilityScore
  {
    var k :| 0 <= k < |s[1..]| && s[1..][k] == e;
    assert s[k + 1] == e;
  }

  /** Inserting into a descending list keeps it descending. */
  lemma {:induction false} InsertSorted(x: SuggestedDriver, s: seq<SuggestedDriver>)
    requires SortedByScore(s)
    ensures SortedByScore(Insert(x, s))
  {
    if s == [] || x.suitabilityScore >= s[0].suitabilityScore {
      var u := [x] + s;
      assert Insert(x, s) == u;
      forall i, j | 0 <= i < j < |u|
        ensures u[i].suitabilityScore >= u[j].suitabilityScore
      {
        if i == 0 {
          assert u[j] == s[j - 1];
        }
      }
    } else {
      var head, tail := s[0], s[1..];
      var t := Insert(x, tail);
      InsertSorted(x, tail);
      InsertPermutation(x, tail);
      var u := [head] + t;
      assert Insert(x, s) == u;
      forall i, j | 0 <= i < j < |u|
        ensures u[i].suitabilityScore >= u[j].suitabilityScore
      {
        var e := t[j - 1];
        assert u[j] == e;
        if i == 0 {
          assert e in multiset(t);
          if e != x {
            assert e in multiset(tail);
            HeadOutscoresRest(s, e);
          }
        } else {
          assert u[i] == t[i - 1];
        }
      }
    }
  }

  lemma InsertSortedPermutation(x: SuggestedDriver, s: seq<SuggestedDriver>)
    requires SortedByScore(s)
    ensures SortedByScore(Insert(x, s))
    ensures multiset(Insert(x, s)) == multiset(s) + multiset{x}
  {
    InsertSorted(x, s);
    InsertPermutation(x, s);
  }

  /** The sort returns a descending permutation of its input. */
  lemma {:induction false} SortSortedPermutation(s: seq<SuggestedDriver>)
    ensures SortedByScore(SortByScore(s))
    ensures multiset(SortByScore(s)) == multiset(s)
  {
    if s != [] {
      SortSortedPermutation(s[1..]);
      InsertSortedPermutation(s[0], SortByScore(s[1..]));
      assert s == [s[0]] + s[1..];
    }
  }

  /** Selects the entries whose score is exactly `v`. */
  function WithScore(v: real): SuggestedDriver -> bool
  {
    (e: SuggestedDriver) => e.suitabilityScore == v
  }

  /**
   * One step of `Insert` passing over a higher-scored `head`: `head` and `x`
   * never share a score, so their relative order among equal scores is moot.
   */
  lemma PassOver(x: SuggestedDriver, head: SuggestedDriver, t: seq<SuggestedDriver>, tail: seq<SuggestedDriver>, v: real)
    requires x.suitabilityScore < head.suitabilityScore
    requires Filter(WithScore(v), t) == Filter(WithScore(v), [x]) + Filter(WithScore(v), tail)
    ensures Filter(WithScore(v), [head] + t) == Filter(WithScore(v), [x]) + Filter(WithScore(v), [head] + tail)
  {
    var p := WithScore(v);
    var ft, fx, ftail := Filter(p, t), Filter(p, [x]), Filter(p, tail);
    FilterCons(p, head, t);
    FilterCons(p, head, tail);
    if p(head) {
      assert !p(x);
      FilterSingleton(p, x);
      assert fx == [];
      assert Filter(p, [head] + t) == [head] + ft;
      assert Filter(p, [head] + tail) == [head] + ftail;
      assert ft == ftail;
    } else {
      assert Filter(p, [head] + t) == ft;
      assert Filter(p, [head] + tail) == ftail;
    }
  }

  /** Among the entries of score `v`, `x` goes in front of those it is inserted before. */
  lemma {:induction false} InsertStable(x: SuggestedDriver, s: seq<SuggestedDriver>, v: real)
    ensures Filter(WithScore(v), Insert(x, s)) == Filter(WithScore(v), [x]) + Filter(WithScore(v), s)
  {
    if s == [] || x.suitabilityScore >= s[0].suitabilityScore {
      assert Insert(x, s) == [x] + s;
      FilterAppend(WithScore(v), [x], s);
    } else {
      var head, tail := s[0], s[1..];
      assert s == [head] + tail;
      assert Insert(x, s) == [head] + Insert(x, tail);
      InsertStable(x, tail, v);
      PassOver(x, head, Insert(x, tail), tail, v);
    }
  }

  /** Stability: among entries of any one score, the sort keeps input order. */
  lemma {:induction false} SortStable(s: seq<SuggestedDriver>, v: real)
    ensures Filter(WithScore(v), SortByScore(s)) == Filter(WithScore(v), s)
  {
    if s != [] {
      SortStable(s[1..], v);
      InsertStable(s[0], SortByScore(s[1..]), v);
      assert s == [s[0]] + s[1..];
      FilterAppend(WithScore(v), [s[0]], s[1..]);
    }
  }

  /** `.slice(0, 5)`. */
  function Top(s: seq<SuggestedDriver>, k: nat): seq<SuggestedDriver>
  {
    if |s| <= k then s else s[..k]
  }

  /**
   * `getSuggestedDrivers(distanceCategory, maxDistance)`. The category label
   * is accepted and ignored; only `maxDistance` reaches the score.
   */
  function SuggestedDrivers(drivers: seq<Driver>, distanceCategory: string, maxDistance: real): seq<SuggestedDriver>
  {
    Top(SortByScore(Candidates(drivers, maxDistance)), SuggestionLimit)
  }

  /**
   * Every suggestion is an on-duty input driver carrying its own suitability
   * score, and there are min(5, on-duty count) of them.
   */
  lemma SuggestionsContents(drivers: seq<Driver>, distanceCategory: string, maxDistance: real)
    ensures var r := SuggestedDrivers(drivers, distanceCategory, maxDistance);
            var onDuty := |Filter(IsOnDuty, drivers)|;
            |r| == (if onDuty < SuggestionLimit then onDuty else SuggestionLimit)
    ensures var r := SuggestedDrivers(drivers, distanceCategory, maxDistance);
            forall i :: 0 <= i < |r| ==>
              r[i].driver in drivers && r[i].driver.isOnDuty
              && r[i].suitabilityScore == Suitability(r[i].driver, maxDistance)
  {
    var cands := Candidates(drivers, maxDistance);
    var sorted := SortByScore(cands);
    var r := SuggestedDrivers(drivers, distanceCategory, maxDistance);
    SortSortedPermutation(cands);
    assert |sorted| == |multiset(sorted)| == |cands|;
    forall i | 0 <= i < |r|
      ensures r[i].driver in drivers && r[i].driver.isOnDuty
      ensures r[i].suitabilityScore == Suitability(r[i].driver, maxDistance)
    {
      assert r[i] == sorted[i];
      assert r[i] in multiset(sorted);
      assert r[i] in cands;
      var k :| 0 <= k < |cands| && cands[k] == r[i];
      assert Filter(IsOnDuty, drivers)[k] in Filter(IsOnDuty, drivers);
    }
  }

  /** The suggestions are ordered best first. */
  lemma SuggestionsOrdered(drivers: seq<Driver>, distanceCategory: string, maxDistance: real)
    ensures var r := SuggestedDrivers(drivers, distanceCategory, maxDistance);
            forall i, j :: 0 <= i < j < |r| ==> r[i].suitabilityScore >= r[j].suitabilityScore
  {
    SortSortedPermutation(Candidates(drivers, maxDistance));
  }

  /** In a descending list, whatever follows position `k` scores no more than what precedes it. */
  lemma DroppedTailScoresLower(sorted: seq<SuggestedDriver>, k: nat)
    requires SortedByScore(sorted) && k <= |sorted|
    ensures forall e, i :: e in multiset(sorted) - multiset(sorted[..k]) && 0 <= i < k
              ==> e.suitabilityScore <= sorted[i].suitabilityScore
  {
    var kept, rest := sorted[..k], sorted[k..];
    assert sorted == kept + rest;
    assert multiset(sorted) - multiset(kept) == multiset(rest);
    forall e: SuggestedDriver, i | e in multiset(rest) && 0 <= i < k
      ensures e.suitabilityScore <= sorted[i].suitabilityScore
    {
      assert e in rest;
      var j :| 0 <= j < |rest| && rest[j] == e;
      assert sorted[k + j] == e;
    }
  }

  /** No on-duty driver left out of the suggestions outscores one kept in them. */
  lemma SuggestionsKeepTheBest(drivers: seq<Driver>, distanceCategory: string, maxDistance: real)
    ensures var r := SuggestedDrivers(drivers, distanceCategory, maxDistance);
            forall e, i :: e in multiset(Candidates(drivers, maxDistance)) - multiset(r) && 0 <= i < |r|
              ==> e.suitabilityScore <= r[i].suitabilityScore
  {
    var cands := Candidates(drivers, maxDistance);
    var sorted := SortByScore(cands);
    SortSortedPermutation(cands);
    var k := if |sorted| <= SuggestionLimit then |sorted| else SuggestionLimit;
    var r := SuggestedDrivers(drivers, distanceCategory, maxDistance);
    assert r == sorted[..k];
    assert multiset(cands) - multiset(r) == multiset(sorted) - multiset(sorted[..k]);
    DroppedTailScoresLower(sorted, k);
  }

  /**
   * Ties keep input order: the suggestions of any one score are the first
   * on-duty drivers of that score, in input order.
   */
  lemma SuggestionsBreakTiesByInputOrder(drivers: seq<Driver>, distanceCategory: string, maxDistance: real, v: real)
    ensures Filter(WithScore(v), SuggestedDrivers(drivers, distanceCategory, maxDistance))
            <= Filter(WithScore(v), Candidates(drivers, maxDistance))
  {
    var sorted := SortByScore(Candidates(drivers, maxDistance));
    SortStable(Candidates(drivers, maxDistance), v);
    if SuggestionLimit < |sorted| {
      FilterOfPrefix(WithScore(v), sorted, SuggestionLimit);
    }
  }

  /** The view's three panels ask for 50, 200 and 500 km, one per category. */
  lemma PanelDistancesMatchTheirLabels()
    ensures CategoryOf(50.0) == Corta && CategoryOf(200.0) == Media && CategoryOf(500.0) == Larga
  {
  }

  // ---------------------------------------------------------------------
  // Driver card
  // ---------------------------------------------------------------------

  datatype SuitabilityBadge = Excelente | Bueno | NoRecomendado

  /** `getSuitabilityBadge`: the same 80/60 thresholds as the score colour. */
  function BadgeFor(score: real): (b: SuitabilityBadge)
    ensures b == Excelente <==> ScoreBand(score) == Green
    ensures b == Bueno <==> ScoreBand(score) == Yellow
    ensures b == NoRecomendado <==> ScoreBand(score) == Red
  {
    if score >= 80.0 then Excelente
    else if score >= 60.0 then Bueno
    else NoRecomendado
  }

  datatype LowScoreReason = AltaFatiga | BajaAtencion

  /**
   * The "No recomendado ... debido a" note on a card: shown below 60, blaming
   * fatigue above 50 and attention otherwise.
   */
  function LowScoreNote(d: Driver, score: real): (r: Option<LowScoreReason>)
    ensures r.Some? <==> BadgeFor(score) == NoRecomendado
    ensures r.Some? ==> (r.value == AltaFatiga <==> d.fatigueLevel > 50.0)
  {
    if score < 60.0 then Some(if d.fatigueLevel > 50.0 then AltaFatiga else BajaAtencion)
    else None
  }
}
