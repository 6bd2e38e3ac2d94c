/**
 * The sleep profile view: the weekly summary (best and worst night, total
 * hours), the latest night's deep and REM sleep, and the status badge text.
 */
module ProfileDetail {
  import opened DriverTypes
  import opened Seqs
  import opened Bands

  function Qualities(nights: seq<SleepEntry>): seq<real>
  {
    seq(|nights|, i requires 0 <= i < |nights| => nights[i].quality)
  }

  function Hours(nights: seq<SleepEntry>): seq<real>
  {
    seq(|nights|, i requires 0 <= i < |nights| => nights[i].hours)
  }

  /**
   * "Mejor noche": `Math.max(...sleepData.map((d) => d.quality))`; `None`
   * for the -Infinity an empty list gives.
   */
  function BestNight(p: Profile): (best: Option<real>)
    ensures best.None? <==> |p.sleepData| == 0
    ensures best.Some? ==>
      (exists i :: 0 <= i < |p.sleepData| && p.sleepData[i].quality == best.value)
      && forall i :: 0 <= i < |p.sleepData| ==> p.sleepData[i].quality <= best.value
  {
    if |p.sleepData| == 0 then None
    else
      var qs := Qualities(p.sleepData);
      var m := MaxOf(qs);
      assert forall i :: 0 <= i < |qs| ==> qs[i] == p.sleepData[i].quality;
      assert exists i :: 0 <= i < |qs| && qs[i] == m;
      Some(m)
  }

  /**
   * "Noche más difícil": `Math.min(...sleepData.map((d) => d.quality))`;
   * `None` for the +Infinity an empty list gives.
   */
  function WorstNight(p: Profile): (worst: Option<real>)
    ensures worst.None? <==> |p.sleepData| == 0
    ensures worst.Some? ==>
      (exists i :: 0 <= i < |p.sleepData| && p.sleepData[i].quality == worst.value)
      && forall i :: 0 <= i < |p.sleepData| ==> worst.value <= p.sleepData[i].quality
  {
    if |p.sleepData| == 0 then None
    else
      var qs := Qualities(p.sleepData);
      var m := MinOf(qs);
      assert forall i :: 0 <= i < |qs| ==> qs[i] == p.sleepData[i].quality;
      assert exists i :: 0 <= i < |qs| && qs[i] == m;
      Some(m)
  }

  /** The worst night is never better than the best one. */
  lemma WorstAtMostBest(p: Profile)
    requires |p.sleepData| > 0
    ensures WorstNight(p).value <= BestNight(p).value
  {
    var b, w := BestNight(p).value, WorstNight(p).value;
    var i :| 0 <= i < |p.sleepData| && p.sleepData[i].quality == b;
    assert w <= p.sleepData[i].quality;
  }

  /** "Total de horas dormidas": the sum of every night's hours (before `toFixed(1)`). */
  function TotalHours(p: Profile): real
  {
    Sum(Hours(p.sleepData))
  }

  /** Recording one more night adds exactly its hours to the total. */
  lemma TotalHoursAddsNight(p: Profile, night: SleepEntry)
    ensures TotalHours(p.(sleepData := p.sleepData + [night])) == TotalHours(p) + night.hours
  {
    var before := Hours(p.sleepData);
    var after := Hours(p.sleepData + [night]);
    assert after == before + [night.hours];
    assert after[..|after| - 1] == before;
  }

  /** The total of nights that each lasted between `lo` and `hi` hours lies between n·lo and n·hi. */
  lemma TotalHoursBounds(p: Profile, lo: real, hi: real)
    requires forall e :: e in p.sleepData ==> lo <= e.hours <= hi
    ensures (|p.sleepData| as real) * lo <= TotalHours(p) <= (|p.sleepData| as real) * hi
  {
    var hs := Hours(p.sleepData);
    forall i | 0 <= i < |hs|
      ensures lo <= hs[i] <= hi
    {
      assert p.sleepData[i] in p.sleepData;
    }
    SumBounds(hs, lo, hi);
  }

  /** "Sueño profundo": the last night's deep sleep, 0 without nights. */
  function LatestDeepSleep(p: Profile): real
  {
    LastOrZero(p.sleepData, (e: SleepEntry) => e.deepSleep)
  }

  /** "Sueño REM": the last night's REM sleep, 0 without nights. */
  function LatestRemSleep(p: Profile): real
  {
    LastOrZero(p.sleepData, (e: SleepEntry) => e.remSleep)
  }

  /** The two sleep-phase figures come from the newest night, or are 0 for an empty list. */
  lemma LatestPhasesReadNewestNight(p: Profile)
    ensures |p.sleepData| == 0 ==> LatestDeepSleep(p) == 0.0 && LatestRemSleep(p) == 0.0
    ensures |p.sleepData| > 0 ==>
      LatestDeepSleep(p) == p.sleepData[|p.sleepData| - 1].deepSleep
      && LatestRemSleep(p) == p.sleepData[|p.sleepData| - 1].remSleep
  {
  }

  /** `String.prototype.replace` with a one-character string pattern: only the first match changes. */
  function ReplaceFirst(s: string, from: char, to: char): (r: string)
    ensures |r| == |s|
  {
    if s == [] then []
    else if s[0] == from then [to] + s[1..]
    else [s[0]] + ReplaceFirst(s[1..], from, to)
  }

  /** A string without `from` comes back unchanged. */
  lemma {:induction false} ReplaceFirstWithoutMatch(s: string, from: char, to: char)
    requires from !in s
    ensures ReplaceFirst(s, from, to) == s
  {
    if s != [] {
      assert s[0] != from;
      ReplaceFirstWithoutMatch(s[1..], from, to);
    }
  }

  /** Text before the first `from` is kept, that `from` becomes `to`, and everything after it is kept. */
  lemma {:induction false} ReplaceFirstAt(before: string, from: char, after: string, to: char)
    requires from !in before
    ensures ReplaceFirst(before + [from] + after, from, to) == before + [to] + after
  {
    if before != [] {
      ReplaceFirstAt(before[1..], from, after, to);
      assert (before + [from] + after)[1..] == before[1..] + [from] + after;
    } else {
      assert before + [from] + after == [from] + after;
    }
  }

  /** `getStatusColor`: the badge colour follows the status, one colour per status. */
  function StatusBand(status: SleepStatus): (b: Band)
    ensures b == Green <==> status == Perfecto
    ensures b == Yellow <==> status == ConProblemas
    ensures b == Red <==> status == CriticoSleep
  {
    match status
    case Perfecto => Green
    case ConProblemas => Yellow
    case CriticoSleep => Red
  }

  /** The status badge text: `status.replace("-", " ")`. */
  function StatusLabel(status: SleepStatus): string
  {
    ReplaceFirst(SleepStatusText(status), '-', ' ')
  }

  /** "con-problemas" reads "con problemas": the one hyphen becomes a space. */
  lemma StatusLabelWithHyphen()
    ensures StatusLabel(ConProblemas) == "con" + " " + "problemas"
  {
    var before, after := "con", "problemas";
    assert '-' !in before;
    ReplaceFirstAt(before, '-', after, ' ');
    assert SleepStatusText(ConProblemas) == before + ['-'] + after;
  }

  /** The other two statuses have no hyphen and read as their raw values. */
  lemma StatusLabelsWithoutHyphen(status: SleepStatus)
    requires status != ConProblemas
    ensures StatusLabel(status) == SleepStatusText(status)
  {
    ReplaceFirstWithoutMatch(SleepStatusText(status), '-', ' ');
  }
}
