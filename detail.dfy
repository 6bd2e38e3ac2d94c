/**
 * The driver-detail view: the recommendation cards, the critical banner, the
 * latest telemetry readings and the avatar initials.
 */
module DriverDetail {
  import opened DriverTypes
  import opened Seqs

  // ---------------------------------------------------------------------
  // Recommendation cards
  // ---------------------------------------------------------------------

  datatype Advice = AtencionCritica | AltaFatiga | ExcesoHoras | EstadoOptimo

  /** The condition on the "Exceso de Horas" card: `hoursOnDuty` truthy and above 8. */
  predicate ExceedsHours(hours: Option<real>)
  {
    hours.Some? && hours.value != 0.0 && hours.value > 8.0
  }

  /** The recommendation cards shown, in the order the view lists them. */
  function Recommendations(d: Driver): (cards: seq<Advice>)
    ensures AtencionCritica in cards <==> d.attentionScore < 60.0
    ensures AltaFatiga in cards <==> d.fatigueLevel > 70.0
    ensures ExcesoHoras in cards <==> d.hoursOnDuty.Some? && d.hoursOnDuty.value > 8.0
    ensures EstadoOptimo in cards <==> d.attentionScore >= 80.0 && d.fatigueLevel < 30.0
    ensures forall i, j :: 0 <= i < j < |cards| ==> cards[i] != cards[j]
  {
    (if d.attentionScore < 60.0 then [AtencionCritica] else [])
    + (if d.fatigueLevel > 70.0 then [AltaFatiga] else [])
    + (if ExceedsHours(d.hoursOnDuty) then [ExcesoHoras] else [])
    + (if d.attentionScore >= 80.0 && d.fatigueLevel < 30.0 then [EstadoOptimo] else [])
  }

  /** "Estado Óptimo" never appears beside "Atención Crítica" or "Alta Fatiga". */
  lemma OptimalExcludesWarnings(d: Driver)
    ensures EstadoOptimo in Recommendations(d) ==>
              AtencionCritica !in Recommendations(d) && AltaFatiga !in Recommendations(d)
  {
  }

  /**
   * What a JSX child expression renders to: nothing (`undefined`, `null`,
   * `false`), a number React prints as text, or an advice card.
   */
  datatype Rendered = Nothing | NumberText(n: real) | Card(advice: Advice)

  /**
   * `{driver.hoursOnDuty && driver.hoursOnDuty > 8 && (<card/>)}` as written.
   * `&&` yields its first falsy operand, so `hoursOnDuty == 0` yields the
   * number 0, which React prints.
   */
  function ExcessHoursSlotAsWritten(hours: Option<real>): Rendered
  {
    match hours
    case None => Nothing
    case Some(h) =>
      if h == 0.0 then NumberText(0.0)
      else if h > 8.0 then Card(ExcesoHoras)
      else Nothing
  }

  /** A driver with `hoursOnDuty: 0` gets a stray "0" in the recommendations grid. */
  lemma ExcessHoursSlotPrintsZero()
    ensures ExcessHoursSlotAsWritten(Some(0.0)) == NumberText(0.0)
  {
  }

  /** The slot as evidently intended: the card or nothing, never a number. */
  function ExcessHoursSlot(hours: Option<real>): (r: Rendered)
    ensures !r.NumberText?
    ensures r == Card(ExcesoHoras) <==> hours.Some? && hours.value > 8.0
    ensures r != Card(ExcesoHoras) ==> r == Nothing
  {
    if ExceedsHours(hours) then Card(ExcesoHoras) else Nothing
  }

  /** The intended slot differs from the written one only at `hoursOnDuty == 0`. */
  lemma ExcessHoursSlotAgreesElsewhere(hours: Option<real>)
    requires hours != Some(0.0)
    ensures ExcessHoursSlot(hours) == ExcessHoursSlotAsWritten(hours)
  {
  }

  /** The "¡ESTADO CRÍTICO DE ATENCIÓN!" banner. */
  predicate ShowsCriticalBanner(d: Driver)
  {
    d.attentionLevel == Critico
  }

  /** The banner follows the qualitative level alone; the numeric score does not move it. */
  lemma CriticalBannerIgnoresScore(d: Driver, score: real)
    ensures ShowsCriticalBanner(d.(attentionScore := score)) == ShowsCriticalBanner(d)
  {
  }

  // ---------------------------------------------------------------------
  // Latest telemetry sample
  // ---------------------------------------------------------------------

  datatype Metrics = Metrics(eyeMovement: real, headPosition: real, blinkRate: real, yawnCount: real)

  /**
   * The "Métricas de Atención Detalladas" block: rendered only for a
   * non-empty `alertnessData`, each figure read from its last sample with the
   * `|| 0` fallback.
   */
  function LatestMetrics(d: Driver): (m: Option<Metrics>)
    ensures m.None? <==> |d.alertnessData| == 0
    ensures m.Some? ==>
      var last := d.alertnessData[|d.alertnessData| - 1];
      m.value == Metrics(last.eyeMovement, last.headPosition, last.blinkRate, last.yawnCount)
  {
    if |d.alertnessData| == 0 then None
    else Some(Metrics(
      LastOrZero(d.alertnessData, (s: AlertnessSample) => s.eyeMovement),
      LastOrZero(d.alertnessData, (s: AlertnessSample) => s.headPosition),
      LastOrZero(d.alertnessData, (s: AlertnessSample) => s.blinkRate),
      LastOrZero(d.alertnessData, (s: AlertnessSample) => s.yawnCount)))
  }

  // ---------------------------------------------------------------------
  // Avatar initials
  // ---------------------------------------------------------------------

  /** `split(" ")`: the pieces between spaces, empty ones included; never an empty list. */
  function Split(s: string): (pieces: seq<string>)
    ensures |pieces| >= 1
    ensures forall k :: 0 <= k < |pieces| ==> ' ' !in pieces[k]
  {
    if s == [] then [[]]
    else
      var rest := Split(s[1..]);
      if s[0] == ' ' then [[]] + rest
      else [[s[0]] + rest[0]] + rest[1..]
  }

  /** `join(" ")`. */
  function Join(pieces: seq<string>): string
    requires |pieces| >= 1
  {
    if |pieces| == 1 then pieces[0] else pieces[0] + " " + Join(pieces[1..])
  }

  /** Joining the pieces with spaces gives back the original string. */
  lemma {:induction false} SplitJoin(s: string)
    ensures Join(Split(s)) == s
  {
    if s != [] {
      var t := s[1..];
      SplitJoin(t);
      var rest := Split(t);
      if s[0] == ' ' {
        assert Split(s) == [[]] + rest;
        assert Join(Split(s)) == [] + " " + Join(rest);
      } else {
        assert Split(s) == [[s[0]] + rest[0]] + rest[1..];
        if |rest| == 1 {
          assert Join(Split(s)) == [s[0]] + rest[0];
        } else {
          assert Join(rest) == rest[0] + " " + Join(rest[1..]);
          assert Join(Split(s)) == ([s[0]] + rest[0]) + " " + Join(rest[1..]);
        }
        assert s == [s[0]] + t;
      }
    }
  }

  /**
   * `map((n) => n[0]).join("")`: the first character of each piece. An empty
   * piece gives `undefined`, which `join` prints as "".
   */
  function FirstChars(pieces: seq<string>): (r: string)
    ensures |r| <= |pieces|
  {
    if pieces == [] then []
    else (if pieces[0] == [] then [] else [pieces[0][0]]) + FirstChars(pieces[1..])
  }

  /** The avatar fallback text. */
  function Initials(name: string): string
  {
    FirstChars(Split(name))
  }

  /**
   * An independent reading of the same text: the characters that are not
   * spaces and open a word (start of string, or right after a space).
   */
  function WordStarts(s: string, afterSpace: bool): string
  {
    if s == [] then []
    else (if afterSpace && s[0] != ' ' then [s[0]] else []) + WordStarts(s[1..], s[0] == ' ')
  }

  lemma {:induction false} FirstCharsAreWordStarts(s: string)
    ensures FirstChars(Split(s)) == WordStarts(s, true)
    ensures FirstChars(Split(s)[1..]) == WordStarts(s, false)
  {
    if s != [] {
      var t := s[1..];
      FirstCharsAreWordStarts(t);
      var rest := Split(t);
      if s[0] == ' ' {
        assert Split(s) == [[]] + rest;
        assert Split(s)[1..] == rest;
      } else {
        var first := [s[0]] + rest[0];
        assert Split(s) == [first] + rest[1..];
        assert Split(s)[1..] == rest[1..];
        assert FirstChars(rest) == (if rest[0] == [] then [] else [rest[0][0]]) + FirstChars(rest[1..]);
        assert FirstChars(Split(s)) == [s[0]] + FirstChars(rest[1..]);
      }
    }
  }

  /** The initials are exactly the word-opening characters of the name, at most one per piece. */
  lemma InitialsAreWordStarts(name: string)
    ensures Initials(name) == WordStarts(name, true)
    ensures |Initials(name)| <= |Split(name)|
    ensures ' ' !in Initials(name)
  {
    FirstCharsAreWordStarts(name);
    NoSpaceInWordStarts(name, true);
  }

  lemma {:induction false} NoSpaceInWordStarts(s: string, afterSpace: bool)
    ensures ' ' !in WordStarts(s, afterSpace)
  {
    if s != [] {
      NoSpaceInWordStarts(s[1..], s[0] == ' ');
    }
  }

  /** A two-word name gives one initial per word. */
  lemma InitialsOfTwoWords()
    ensures Initials("Jo Li") == "JL"
  {
    FirstCharsAreWordStarts("Jo Li");
    assert WordStarts(" Li", false) == "L" by {
      assert WordStarts("Li", true) == "L";
    }
  }

  /** A doubled space adds an empty piece, and that piece adds no initial; an empty name has none. */
  lemma InitialsSkipEmptyPieces()
    ensures Initials("A  B") == "AB"
    ensures Initials("") == ""
  {
    FirstCharsAreWordStarts("A  B");
    assert WordStarts("  B", false) == "B" by {
      assert WordStarts(" B", true) == "B";
    }
  }
}
