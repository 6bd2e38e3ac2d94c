/**
 * The driver-history view: a three-way conjunctive filter over the history
 * records (search text, status, risk) and the summary figures above it.
 */
module DriverHistory {
  import opened DriverTypes
  import opened Seqs

  /** A select filter: `"todos"` lets every value through, anything else one value. */
  datatype Choice<T> = Todos | Only(value: T)

  /** `toLowerCase`, on ASCII letters only. */
  function LowerChar(c: char): char
  {
    if 'A' <= c <= 'Z' then (c as int + 32) as char else c
  }

  function ToLower(s: string): string
  {
    seq(|s|, i requires 0 <= i < |s| => LowerChar(s[i]))
  }

  /** Lowercasing twice is lowercasing once. */
  lemma ToLowerIdempotent(s: string)
    ensures ToLower(ToLower(s)) == ToLower(s)
  {
  }

  /** `String.prototype.includes`: `sub` occurs in `s` at some position. */
  predicate Includes(s: string, sub: string)
  {
    sub <= s || (s != [] && Includes(s[1..], sub))
  }

  predicate MatchesSearch(r: DriverHistoryRecord, searchTerm: string)
  {
    Includes(ToLower(r.name), ToLower(searchTerm))
    || Includes(ToLower(r.licenseNumber), ToLower(searchTerm))
  }

  predicate MatchesStatus(r: DriverHistoryRecord, statusFilter: Choice<Status>)
  {
    statusFilter.Todos? || r.status == statusFilter.value
  }

  predicate MatchesRisk(r: DriverHistoryRecord, riskFilter: Choice<RiskLevel>)
  {
    riskFilter.Todos? || r.riskLevel == riskFilter.value
  }

  /** The callback given to `driverHistory.filter`. */
  function Matches(searchTerm: string, statusFilter: Choice<Status>, riskFilter: Choice<RiskLevel>): DriverHistoryRecord -> bool
  {
    r => MatchesSearch(r, searchTerm) && MatchesStatus(r, statusFilter) && MatchesRisk(r, riskFilter)
  }

  /** `filteredDrivers`: a record is shown exactly when all three conditions hold. */
  function FilteredDrivers(history: seq<DriverHistoryRecord>, searchTerm: string,
                           statusFilter: Choice<Status>, riskFilter: Choice<RiskLevel>): (shown: seq<DriverHistoryRecord>)
    ensures forall r :: r in shown <==>
      r in history && MatchesSearch(r, searchTerm) && MatchesStatus(r, statusFilter) && MatchesRisk(r, riskFilter)
    ensures IsSubsequence(shown, history) && |shown| <= |history|
  {
    FilterIsSubsequence(Matches(searchTerm, statusFilter, riskFilter), history);
    Filter(Matches(searchTerm, statusFilter, riskFilter), history)
  }

  lemma {:induction false} IncludesEmpty(s: string)
    ensures Includes(s, [])
  {
    assert [] <= s;
  }

  /**
   * With an empty search and both selects on "todos" (the initial state, and
   * the state "Limpiar Filtros" restores) every record is shown, in order.
   */
  lemma ClearedFiltersShowEverything(history: seq<DriverHistoryRecord>)
    ensures FilteredDrivers(history, "", Todos, Todos) == history
  {
    var p := Matches("", Todos, Todos);
    forall r | r in history
      ensures p(r)
    {
      assert ToLower("") == [];
      IncludesEmpty(ToLower(r.name));
    }
    FilterKeepsAll(p, history);
  }

  /** Choosing a specific status instead of "todos" can only remove records, keeping order. */
  lemma NarrowingStatusKeepsSubsequence(history: seq<DriverHistoryRecord>, searchTerm: string,
                                        status: Status, riskFilter: Choice<RiskLevel>)
    ensures IsSubsequence(FilteredDrivers(history, searchTerm, Only(status), riskFilter),
                          FilteredDrivers(history, searchTerm, Todos, riskFilter))
  {
    FilterNarrowing(Matches(searchTerm, Todos, riskFilter), Matches(searchTerm, Only(status), riskFilter), history);
  }

  /** Choosing a specific risk level instead of "todos" can only remove records, keeping order. */
  lemma NarrowingRiskKeepsSubsequence(history: seq<DriverHistoryRecord>, searchTerm: string,
                                      statusFilter: Choice<Status>, risk: RiskLevel)
    ensures IsSubsequence(FilteredDrivers(history, searchTerm, statusFilter, Only(risk)),
                          FilteredDrivers(history, searchTerm, statusFilter, Todos))
  {
    FilterNarrowing(Matches(searchTerm, statusFilter, Todos), Matches(searchTerm, statusFilter, Only(risk)), history);
  }

  /** The search ignores letter case: searching "GARCIA" shows what "garcia" shows. */
  lemma SearchIgnoresCase(history: seq<DriverHistoryRecord>, searchTerm: string,
                          statusFilter: Choice<Status>, riskFilter: Choice<RiskLevel>)
    ensures FilteredDrivers(history, ToLower(searchTerm), statusFilter, riskFilter)
         == FilteredDrivers(history, searchTerm, statusFilter, riskFilter)
  {
    ToLowerIdempotent(searchTerm);
    FilterExtensional(Matches(ToLower(searchTerm), statusFilter, riskFilter),
                      Matches(searchTerm, statusFilter, riskFilter), history);
  }

  predicate IsActive(r: DriverHistoryRecord)
  {
    r.status == Activo
  }

  predicate IsHighRisk(r: DriverHistoryRecord)
  {
    r.riskLevel == Alto
  }

  /** `activeDrivers`: how many records have status "activo"; never more than the total. */
  function ActiveCount(history: seq<DriverHistoryRecord>): (n: nat)
    ensures n <= |history|
    ensures n == 0 <==> forall r :: r in history ==> r.status != Activo
  {
    var matching := Filter(IsActive, history);
    assert matching != [] ==> matching[0] in matching;
    |matching|
  }

  /** `highRiskDrivers`: how many records have risk "alto"; never more than the total. */
  function HighRiskCount(history: seq<DriverHistoryRecord>): (n: nat)
    ensures n <= |history|
    ensures n == 0 <==> forall r :: r in history ==> r.riskLevel != Alto
  {
    var matching := Filter(IsHighRisk, history);
    assert matching != [] ==> matching[0] in matching;
    |matching|
  }

  /** An empty history has no active record, and each record adds one exactly when it is "activo". */
  lemma ActiveCountAppend(history: seq<DriverHistoryRecord>, r: DriverHistoryRecord)
    ensures ActiveCount([]) == 0
    ensures ActiveCount(history + [r]) == ActiveCount(history) + (if r.status == Activo then 1 else 0)
  {
    FilterAppend(IsActive, history, [r]);
    FilterSingleton(IsActive, r);
  }

  /** An empty history has no high-risk record, and each record adds one exactly when its risk is "alto". */
  lemma HighRiskCountAppend(history: seq<DriverHistoryRecord>, r: DriverHistoryRecord)
    ensures HighRiskCount([]) == 0
    ensures HighRiskCount(history + [r]) == HighRiskCount(history) + (if r.riskLevel == Alto then 1 else 0)
  {
    FilterAppend(IsHighRisk, history, [r]);
    FilterSingleton(IsHighRisk, r);
  }

  function AttentionScores(history: seq<DriverHistoryRecord>): seq<real>
  {
    seq(|history|, i requires 0 <= i < |history| => history[i].averageAttentionScore)
  }

  /** `averageAttention`: the rounded mean score, `None` for the NaN an empty history gives. */
  function AverageAttention(history: seq<DriverHistoryRecord>): (avg: Option<int>)
    ensures avg.Some? <==> |history| > 0
  {
    RoundedMean(AttentionScores(history))
  }

  /** The average shown lies between the rounded lowest and highest record scores. */
  lemma AverageAttentionWithinScores(history: seq<DriverHistoryRecord>)
    requires |history| > 0
    ensures Round(MinOf(AttentionScores(history))) <= AverageAttention(history).value
            <= Round(MaxOf(AttentionScores(history)))
  {
    RoundedMeanWithinExtremes(AttentionScores(history));
  }

  /** When every record's score is a whole number, the average lies between the lowest and highest score. */
  lemma AverageAttentionOfWholeScores(history: seq<DriverHistoryRecord>)
    requires |history| > 0
    requires forall r :: r in history ==> r.averageAttentionScore == r.averageAttentionScore.Floor as real
    ensures MinOf(AttentionScores(history)) <= AverageAttention(history).value as real
            <= MaxOf(AttentionScores(history))
  {
    var scores := AttentionScores(history);
    forall i | 0 <= i < |scores|
      ensures scores[i] == scores[i].Floor as real
    {
      assert history[i] in history;
    }
    RoundedMeanOfWholeNumbers(scores);
  }
}
