/** The scoring engine: hand-tuned rules that turn a horse's race history, the target race's
    conditions and its popularity rank into one real-valued score, with a fairness bonus for
    lightly raced horses and half the scores of its sire and dam added one level deep.
    Scores are exact rationals (`real`); dates are day numbers. */
module Scorer {
  import opened PyBuiltins

  // ---------------------------------------------------------------------------
  // Constants

  /** Base score by finishing rank; every other rank scores DefaultRankScore. */
  const RankScores: map<int, real> := map[1 := 10.0, 2 := 8.0, 3 := 6.0, 4 := 4.0, 5 := 2.0]
  const DefaultRankScore: real := 1.0

  /** The margin table: the tokens the results page writes for short margins and the margin
      value each one stands for; None for any other text. */
  function MarginBonus(token: string): (r: Option<real>)
  {
    if token == "クビ" then Some(1.0)
    else if token == "アタマ" then Some(0.8)
    else if token == "ハナ" then Some(0.6)
    else if token == "1/2" then Some(0.5)
    else if token == "3/4" then Some(0.4)
    else if token == "1" then Some(0.3)
    else if token == "1 1/4" then Some(0.2)
    else if token == "1 1/2" then Some(0.1)
    else None
  }

  /** The margin assumed when it is missing or cannot be read. */
  const UnknownMargin: real := 100.0

  const DistanceSimilarityWeight: real := 0.3
  const TrackTypeSimilarityWeight: real := 0.4
  const WeatherSimilarityWeight: real := 0.3
  const MaxSimilarityBonusPerFactor: real := 5.0

  /** The track-condition table: 10, 7, 4 and 1 from firm to heavy; 0 for anything else. */
  function TrackTypeScore(token: string): (r: real)
    ensures 0.0 <= r <= 10.0
  {
    if token == "良" then 10.0
    else if token == "稍重" then 7.0
    else if token == "重" then 4.0
    else if token == "不良" then 1.0
    else 0.0
  }

  /** The weather table: 10, 7, 4 and 1 for fine, cloudy, rain and snow; 0 for anything else. */
  function WeatherScore(token: string): (r: real)
    ensures 0.0 <= r <= 10.0
  {
    if token == "晴" then 10.0
    else if token == "曇" then 7.0
    else if token == "雨" then 4.0
    else if token == "雪" then 1.0
    else 0.0
  }

  const PopularityScores: map<int, real> := map[1 := 500.0, 2 := 400.0, 3 := 300.0, 4 := 200.0, 5 := 100.0]
  const DefaultPopularityScore: real := 50.0

  const ParentScoreMultiplier: real := 0.5

  const MinRacesForFairness: nat := 10
  const MinAvgScoreForFairness: real := 15.0
  const FairnessAdjustmentFactor: real := 0.5
  const RecencyDecayDays: nat := 1095

  // ---------------------------------------------------------------------------
  // Data model

  /** Distance text (e.g. "芝1200"), track condition and weather of a race; None is a
      missing value. */
  datatype Conditions = Conditions(distance: Option<string>, trackType: Option<string>, weather: Option<string>)

  /** One row of a horse's race history. `date` is the day number of the race, None when
      the date could not be parsed. */
  datatype RaceRow = RaceRow(date: Option<int>, rank: Cell, margin: Option<string>, conditions: Conditions)

  /** The three running sums of the past-performance fold. */
  datatype Performance = Performance(total: real, races: nat, recent: real)

  const NoPerformance: Performance := Performance(0.0, 0, 0.0)

  /** What the external horse-data fetch returns: the race history (None when there is no
      results table or the fetch failed) and the sire and dam ids. */
  datatype ParentIds = ParentIds(sire: Option<string>, mare: Option<string>)
  datatype HorseData = HorseData(history: Option<seq<RaceRow>>, parents: Option<ParentIds>)

  /** A parent id takes part only when it is present and not the empty string. */
  predicate Truthy(id: Option<string>) { id.Some? && id.value != [] }

  // ---------------------------------------------------------------------------
  // Margins

  /** parse_margin: a missing margin and an unreadable one give UnknownMargin, a token of the
      margin table gives its constant, "w f" gives w plus the value of the fraction f, and
      numeric text gives its value. An eval() failure on the fraction escapes. */
  function ParseMargin(margin: Option<string>): Result<real>
  {
    if margin.None? then Ok(UnknownMargin)
    else
      var s := Strip(margin.value);
      if MarginBonus(s).Some? then Ok(MarginBonus(s).value)
      else if |Split(s, ' ')| > 1 then
        var parts := Split(s, ' ');
        match ParseFloat(parts[0])
        case None => Ok(UnknownMargin)
        case Some(whole) =>
          var fraction :- EvalFraction(parts[1]);
          Ok(whole + fraction)
      else
        match ParseFloat(s)
        case None => Ok(UnknownMargin)
        case Some(v) => Ok(v)
  }

  /** parse_margin reads a run of digits as the whole number of lengths it denotes, except
      "1", which the margin table reads as 0.3. */
  lemma ParseMarginDigits(t: string)
    requires t != [] && AllDigits(t)
    ensures ParseMargin(Some(t)) == Ok(if t == "1" then 0.3 else DigitsValue(t) as real)
  {
    DigitsPlain(t);
    StripUnchanged(t);
    if t != "1" {
      assert MarginBonus(t).None? by {
        AllDigitsAt(t);
      }
      ParseFloatOfDigits(t);
      assert Split(t, ' ') == [t];
    }
  }

  /** Only two tokens of the margin table are as long as five characters. */
  lemma MarginBonusTokens(s: string)
    ensures MarginBonus(s).Some? ==> |s| < 5 || s == "1 1/4" || s == "1 1/2"
  {
  }

  /** "a b/c" is at least five characters long, and it is "1 1/4" or "1 1/2" only when a
      and b are "1" and c is "4" or "2". */
  lemma MixedTokenShape(a: string, b: string, c: string)
    requires a != [] && b != [] && c != []
    ensures var t := a + " " + (b + "/" + c);
            |t| >= 5 && (t == "1 1/4" || t == "1 1/2" ==> a == "1" && b == "1" && (c == "4" || c == "2"))
  {
    var t := a + " " + (b + "/" + c);
    if t == "1 1/4" || t == "1 1/2" {
      assert |a| == 1 && |b| == 1 && |c| == 1;
      assert a[0] == t[0] && b[0] == t[2] && c[0] == t[4];
    }
  }

  /** parse_margin on "head rest" with nothing to strip, outside the table, where head is a
      float: head plus eval(rest), or the exception eval() raises. */
  lemma ParseMarginMixedStep(head: string, rest: string, whole: real, fraction: Result<real>)
    requires var s := head + " " + rest;
             Strip(s) == s && MarginBonus(s).None? && Split(s, ' ') == [head, rest]
    requires ParseFloat(head) == Some(whole) && EvalFraction(rest) == fraction
    ensures fraction.Raise? ==> ParseMargin(Some(head + " " + rest)) == Raise(fraction.error)
    ensures fraction.Ok? ==> ParseMargin(Some(head + " " + rest)) == Ok(whole + fraction.value)
  {
  }

  /** parse_margin reads a mixed number of lengths "a b/c" written in digits as float(a)
      plus eval("b/c"), and lets eval()'s exception escape; "1 1/4" and "1 1/2" are table
      tokens instead. ParseFloatOfDigits and EvalLiteralQuotient give the two values. */
  lemma ParseMarginMixed(a: string, b: string, c: string, whole: real, fraction: Result<real>)
    requires a != [] && b != [] && c != [] && AllDigits(a) && AllDigits(b) && AllDigits(c)
    requires !(a == "1" && b == "1" && (c == "2" || c == "4"))
    requires ParseFloat(a) == Some(whole) && EvalFraction(b + "/" + c) == fraction
    ensures fraction.Raise? ==> ParseMargin(Some(a + " " + (b + "/" + c))) == Raise(fraction.error)
    ensures fraction.Ok? ==> ParseMargin(Some(a + " " + (b + "/" + c))) == Ok(whole + fraction.value)
  {
    MixedParts(a, b, c);
    ParseMarginMixedStep(a, b + "/" + c, whole, fraction);
  }

  /** What parse_margin sees of a + " " + (b + "/" + c) for digit runs a, b and c: nothing to
      strip, no table token, and the two pieces a and b + "/" + c around the space. */
  lemma MixedParts(a: string, b: string, c: string)
    requires a != [] && b != [] && c != [] && AllDigits(a) && AllDigits(b) && AllDigits(c)
    requires !(a == "1" && b == "1" && (c == "2" || c == "4"))
    ensures var text := a + " " + (b + "/" + c);
            Strip(a) == a && Strip(text) == text && MarginBonus(text).None?
            && Split(text, ' ') == [a, b + "/" + c]
  {
    var rest := b + "/" + c;
    DigitsPlain(a);
    StripUnchanged(a);
    FractionPlain(b, c);
    SplitAtOnlySpace(a, rest);
    MarginBonusTokens(a + " " + rest);
    MixedTokenShape(a, b, c);
  }

  /** b + "/" + c for digit runs b and c holds no space and neither starts nor ends with
      whitespace. */
  lemma FractionPlain(b: string, c: string)
    requires b != [] && c != [] && AllDigits(b) && AllDigits(c)
    ensures var rest := b + "/" + c;
            !IsSpace(rest[0]) && !IsSpace(rest[|rest| - 1]) && IndexOf(rest, ' ') == |rest|
  {
    var rest := b + "/" + c;
    AllDigitsAt(b);
    AllDigitsAt(c);
    assert rest[0] == b[0] && rest[|rest| - 1] == c[|c| - 1];
    assert IsDigit(b[0]) && IsDigit(c[|c| - 1]);

  }

  /** a + " " + b, where neither a nor b holds a space and nothing is to be stripped, keeps its
      text under strip() and splits on the space into a and b. */
  lemma SplitAtOnlySpace(a: string, b: string)
    requires a != [] && b != [] && !IsSpace(a[0]) && !IsSpace(b[|b| - 1])
    requires IndexOf(a, ' ') == |a| && IndexOf(b, ' ') == |b|
    ensures Strip(a + " " + b) == a + " " + b
    ensures Split(a + " " + b, ' ') == [a, b]
  {
    var t := a + " " + b;
    assert t[0] == a[0] && t[|t| - 1] == b[|b| - 1];
    StripUnchanged(t);
    IndexOfSeparator(a, ' ', b);
    assert t[..|a|] == a && t[|a| + 1..] == b;
  }

  /** The margin adjustment: 1/100 of how far the margin is below 100, never negative. */
  function MarginAdjustment(margin: real): (r: real)
    ensures r >= 0.0
    ensures margin >= 0.0 ==> r <= 1.0
    ensures r == 0.0 <==> margin >= 100.0
  {
    Max(0.0, 100.0 - margin) / 100.0
  }

  // ---------------------------------------------------------------------------
  // Condition similarity

  /** The metres a distance text names: int() of its first run of digits; None when the
      text is missing or holds no digit (the search then fails and the term is skipped). */
  function Metres(distance: Option<string>): Option<nat>
  {
    if distance.None? then None
    else
      match FirstDigitRun(distance.value)
      case Some(run) => Some(DigitsValue(run))
      case None => None
  }

  /** The metres of a distance text are the number its leftmost run of digits spells, as
      in "芝1200". */
  lemma MetresOf(pre: string, digits: string, post: string)
    requires forall i :: 0 <= i < |pre| ==> !IsDigit(pre[i])
    requires digits != [] && AllDigits(digits)
    requires post == [] || !IsDigit(post[0])
    ensures Metres(Some(pre + digits + post)) == Some(DigitsValue(digits))
  {
    FirstDigitRunOf(pre, digits, post);
  }

  /** The distance term: full when both sides name the same metres, falling linearly to zero
      at a difference of 1000 m; zero when either side names none. */
  function DistanceTerm(race: Option<string>, target: Option<string>): (r: real)
    ensures 0.0 <= r <= MaxSimilarityBonusPerFactor * DistanceSimilarityWeight
  {
    match (Metres(race), Metres(target))
    case (Some(a), Some(b)) =>
      var diff := Abs(a as real - b as real);
      Max(0.0, 1.0 - diff / 1000.0) * MaxSimilarityBonusPerFactor * DistanceSimilarityWeight
    case _ => 0.0
  }

  /** How close two table scores in [0, 10] are: 1 when equal, down to 0 ten points apart. */
  function Closeness(a: real, b: real): (r: real)
    requires 0.0 <= a <= 10.0 && 0.0 <= b <= 10.0
    ensures 0.0 <= r <= 1.0
  {
    1.0 - Abs(a - b) / 10.0
  }

  /** The track term: full when the two track conditions score alike in the table,
      shrinking by a tenth per point of difference; zero when either side is missing. */
  function TrackTerm(race: Option<string>, target: Option<string>): (r: real)
    ensures 0.0 <= r <= MaxSimilarityBonusPerFactor * TrackTypeSimilarityWeight
  {
    if race.None? || target.None? then 0.0
    else
      var closeness := Closeness(TrackTypeScore(Strip(race.value)), TrackTypeScore(Strip(target.value)));
      closeness * MaxSimilarityBonusPerFactor * TrackTypeSimilarityWeight
  }

  /** The weather term, by the same rule over the weather table. */
  function WeatherTerm(race: Option<string>, target: Option<string>): (r: real)
    ensures 0.0 <= r <= MaxSimilarityBonusPerFactor * WeatherSimilarityWeight
  {
    if race.None? || target.None? then 0.0
    else
      var closeness := Closeness(WeatherScore(Strip(race.value)), WeatherScore(Strip(target.value)));
      closeness * MaxSimilarityBonusPerFactor * WeatherSimilarityWeight
  }

  /** calculate_race_condition_similarity: the sum of the distance, track and weather terms. */
  function Similarity(race: Conditions, target: Conditions): (r: real)
    ensures 0.0 <= r <= 5.0
  {
    DistanceTerm(race.distance, target.distance)
    + TrackTerm(race.trackType, target.trackType)
    + WeatherTerm(race.weather, target.weather)
  }

  // ---------------------------------------------------------------------------
  // What the similarity promises

  /** A distance names no metres exactly when it is missing or holds no digit. */
  lemma MetresNone(distance: Option<string>)
    ensures Metres(distance).None? <==>
              distance.None? || forall i :: 0 <= i < |distance.value| ==> !IsDigit(distance.value[i])
  {
  }

  /** The distance term is full exactly when both sides name the same metres, and zero exactly
      when a side names none or the two lie 1000 m or more apart. */
  lemma DistanceTermExtremes(race: Option<string>, target: Option<string>)
    ensures DistanceTerm(race, target) == MaxSimilarityBonusPerFactor * DistanceSimilarityWeight <==>
              Metres(race).Some? && Metres(race) == Metres(target)
    ensures DistanceTerm(race, target) == 0.0 <==>
              || Metres(race).None? || Metres(target).None?
              || Metres(race).value - Metres(target).value >= 1000
              || Metres(target).value - Metres(race).value >= 1000
  {
  }

  /** The track term is full exactly when both track conditions are present and score alike,
      and zero exactly when one is missing or the two lie at opposite ends of the table
      (firm "良" against a condition the table does not know). */
  lemma TrackTermExtremes(race: Option<string>, target: Option<string>)
    ensures TrackTerm(race, target) == MaxSimilarityBonusPerFactor * TrackTypeSimilarityWeight <==>
              race.Some? && target.Some? && TrackTypeScore(Strip(race.value)) == TrackTypeScore(Strip(target.value))
    ensures TrackTerm(race, target) == 0.0 <==>
              || race.None? || target.None?
              || Abs(TrackTypeScore(Strip(race.value)) - TrackTypeScore(Strip(target.value))) == 10.0
  {
    if race.Some? && target.Some? {
      var a, b := TrackTypeScore(Strip(race.value)), TrackTypeScore(Strip(target.value));
      ClosenessExtremes(a, b);
      ScaledExtremes(Closeness(a, b), MaxSimilarityBonusPerFactor * TrackTypeSimilarityWeight);
      assert TrackTerm(race, target) == Closeness(a, b) * (MaxSimilarityBonusPerFactor * TrackTypeSimilarityWeight);
    }
  }

  /** The weather term is full exactly when both weathers are present and score alike, and
      zero exactly when one is missing or the two lie at opposite ends of the table. */
  lemma WeatherTermExtremes(race: Option<string>, target: Option<string>)
    ensures WeatherTerm(race, target) == MaxSimilarityBonusPerFactor * WeatherSimilarityWeight <==>
              race.Some? && target.Some? && WeatherScore(Strip(race.value)) == WeatherScore(Strip(target.value))
    ensures WeatherTerm(race, target) == 0.0 <==>
              || race.None? || target.None?
              || Abs(WeatherScore(Strip(race.value)) - WeatherScore(Strip(target.value))) == 10.0
  {
    if race.Some? && target.Some? {
      var a, b := WeatherScore(Strip(race.value)), WeatherScore(Strip(target.value));
      ClosenessExtremes(a, b);
      ScaledExtremes(Closeness(a, b), MaxSimilarityBonusPerFactor * WeatherSimilarityWeight);
      assert WeatherTerm(race, target) == Closeness(a, b) * (MaxSimilarityBonusPerFactor * WeatherSimilarityWeight);
    }
  }

  /** Closeness is 1 exactly for equal scores and 0 exactly for scores ten points apart. */
  lemma ClosenessExtremes(a: real, b: real)
    requires 0.0 <= a <= 10.0 && 0.0 <= b <= 10.0
    ensures Closeness(a, b) == 1.0 <==> a == b
    ensures Closeness(a, b) == 0.0 <==> Abs(a - b) == 10.0
  {
  }

  lemma ScaledExtremes(c: real, m: real)
    requires 0.0 <= c <= 1.0 && m > 0.0
    ensures c * m == m <==> c == 1.0
    ensures c * m == 0.0 <==> c == 0.0
  {
    if c * m == m {
      assert (c - 1.0) * m == 0.0;
    }
  }

  /** Two races' conditions match: the same metres, and track condition and weather present
      on both sides with equal table scores. */
  predicate ConditionsMatch(race: Conditions, target: Conditions)
  {
    && Metres(race.distance).Some? && Metres(race.distance) == Metres(target.distance)
    && race.trackType.Some? && target.trackType.Some?
    && TrackTypeScore(Strip(race.trackType.value)) == TrackTypeScore(Strip(target.trackType.value))
    && race.weather.Some? && target.weather.Some?
    && WeatherScore(Strip(race.weather.value)) == WeatherScore(Strip(target.weather.value))
  }

  /** The similarity reaches its maximum of 5 exactly when the conditions match. */
  lemma SimilarityMaximal(race: Conditions, target: Conditions)
    ensures Similarity(race, target) == 5.0 <==> ConditionsMatch(race, target)
  {
    DistanceTermExtremes(race.distance, target.distance);
    TrackTermExtremes(race.trackType, target.trackType);
    WeatherTermExtremes(race.weather, target.weather);
  }

  /** A race compared with itself scores the full 5 exactly when its distance names metres and
      its track condition and weather are present. */
  lemma SimilarityToItself(c: Conditions)
    ensures Similarity(c, c) == 5.0 <==> Metres(c.distance).Some? && c.trackType.Some? && c.weather.Some?
  {
    SimilarityMaximal(c, c);
  }

  // ---------------------------------------------------------------------------
  // One race of the history

  /** The recency factor of a race run `days` days before the target race: 1 on the day,
      falling linearly over RecencyDecayDays and floored at 0.1, which it reaches from day 986;
      above 1 for a race dated after the target race. */
  function RecencyFactor(days: int): (r: real)
    ensures r >= 0.1
    ensures days >= 0 ==> r <= 1.0
    ensures days == 0 ==> r == 1.0
    ensures r == 0.1 <==> days >= 986
    ensures days < 0 ==> r > 1.0
  {
    Max(0.1, 1.0 - days as real / RecencyDecayDays as real)
  }

  /** The base score of a finishing rank: 10, 8, 6, 4, 2 for ranks 1 to 5 and 1 for every
      other rank, also for a missing rank or one int() cannot read. */
  function RankScore(rank: Cell): (r: real)
    ensures 1.0 <= r <= 10.0
  {
    if rank.Blank? then DefaultRankScore
    else
      match CellToInt(rank)
      case Some(n) => if n in RankScores then RankScores[n] else DefaultRankScore
      case None => DefaultRankScore
  }

  /** The rank table in closed form: 12 - 2n for a readable rank n from 1 to 5, 1 for every
      other rank and for a rank that is missing or int() cannot read. */
  lemma RankScoreClosedForm(rank: Cell)
    ensures var n := if rank.Blank? then None else CellToInt(rank);
            RankScore(rank) == if n.Some? && 1 <= n.value <= 5 then 12.0 - 2.0 * n.value as real else 1.0
  {
    if !rank.Blank? && CellToInt(rank).Some? && 1 <= CellToInt(rank).value <= 5 {
      var n := CellToInt(rank).value;
      assert n == 1 || n == 2 || n == 3 || n == 4 || n == 5;
    }
  }

  /** The score of one dated race once its margin is read: (rank score + margin adjustment)
      scaled by recency, plus the condition similarity, which is not scaled. */
  function ScoreOfRace(rank: Cell, margin: real, days: int, race: Conditions, target: Conditions): (r: real)
    ensures r >= 0.1
  {
    var base := RankScore(rank) + MarginAdjustment(margin);
    var recency := RecencyFactor(days);
    ScaledAtLeast(base, recency);
    base * recency + Similarity(race, target)
  }

  lemma ScaledAtLeast(base: real, recency: real)
    requires base >= 1.0 && recency >= 0.1
    ensures base * recency >= 0.1
  {
    assert (base - 1.0) * recency >= 0.0;
  }

  /** The score of a dated history row; raises when the margin's eval() does. */
  function RaceScore(row: RaceRow, target: Conditions, today: int): (r: Result<real>)
    requires row.date.Some?
    ensures r.Ok? <==> ParseMargin(row.margin).Ok?
    ensures r.Ok? ==> r.value >= 0.1
  {
    var margin :- ParseMargin(row.margin);
    Ok(ScoreOfRace(row.rank, margin, today - row.date.value, row.conditions, target))
  }

  // ---------------------------------------------------------------------------
  // The past-performance fold

  /** One step of the fold: an undated row changes nothing; a dated row adds its score to the
      total, counts as a race and adds to the recent subtotal when on or after the cutoff. */
  function Accumulate(p: Performance, row: RaceRow, target: Conditions, today: int, cutoff: int): Result<Performance>
  {
    if row.date.None? then Ok(p)
    else
      var score :- RaceScore(row, target, today);
      Ok(Performance(p.total + score, p.races + 1,
                     if row.date.value >= cutoff then p.recent + score else p.recent))
  }

  /** Accumulate on a dated row whose margin reads, spelled out. */
  lemma AccumulateDated(p: Performance, row: RaceRow, target: Conditions, today: int, cutoff: int, margin: real)
    requires row.date.Some? && ParseMargin(row.margin) == Ok(margin)
    ensures var score := ScoreOfRace(row.rank, margin, today - row.date.value, row.conditions, target);
            Accumulate(p, row, target, today, cutoff)
            == Ok(Performance(p.total + score, p.races + 1, if row.date.value >= cutoff then p.recent + score else p.recent))
  {
  }

  /** One dated step of the fold over a prefix of the history. */
  lemma PerformanceStepDated(rows: seq<RaceRow>, i: nat, target: Conditions, today: int, cutoff: int,
                             p: Performance, margin: real)
    requires i < |rows| && rows[i].date.Some? && ParseMargin(rows[i].margin) == Ok(margin)
    requires PerformanceOf(rows[..i], target, today, cutoff) == Ok(p)
    ensures var row := rows[i];
            var score := ScoreOfRace(row.rank, margin, today - row.date.value, row.conditions, target);
            PerformanceOf(rows[..i + 1], target, today, cutoff)
            == Ok(Performance(p.total + score, p.races + 1, if row.date.value >= cutoff then p.recent + score else p.recent))
  {
    PerformanceOfPrefix(rows, i, target, today, cutoff);
    AccumulateDated(p, rows[i], target, today, cutoff, margin);
  }

  /** An undated row leaves the fold over a prefix as it was. */
  lemma PerformanceStepUndated(rows: seq<RaceRow>, i: nat, target: Conditions, today: int, cutoff: int, p: Performance)
    requires i < |rows| && rows[i].date.None?
    requires PerformanceOf(rows[..i], target, today, cutoff) == Ok(p)
    ensures PerformanceOf(rows[..i + 1], target, today, cutoff) == Ok(p)
  {
    PerformanceOfPrefix(rows, i, target, today, cutoff);
  }

  /** A dated row whose margin raises ends the fold over the whole history with that error. */
  lemma PerformanceStepRaise(rows: seq<RaceRow>, i: nat, target: Conditions, today: int, cutoff: int, p: Performance,
                             error: PyError)
    requires i < |rows| && rows[i].date.Some? && ParseMargin(rows[i].margin) == Raise(error)
    requires PerformanceOf(rows[..i], target, today, cutoff) == Ok(p)
    ensures PerformanceOf(rows, target, today, cutoff) == Raise(error)
  {
    PerformanceOfPrefix(rows, i, target, today, cutoff);
    RaiseIsFinal(rows, i + 1, target, today, cutoff);
  }

  /** The fold over the rows in order; the first row that raises ends it. */
  function PerformanceOf(rows: seq<RaceRow>, target: Conditions, today: int, cutoff: int): Result<Performance>
    decreases |rows|
  {
    if rows == [] then Ok(NoPerformance)
    else
      var p :- PerformanceOf(rows[..|rows| - 1], target, today, cutoff);
      Accumulate(p, rows[|rows| - 1], target, today, cutoff)
  }

  /** A missing history scores like an empty one. */
  function HistoryPerformance(history: Option<seq<RaceRow>>, target: Conditions, today: int, cutoff: int): Result<Performance>
  {
    if history.None? then Ok(NoPerformance) else PerformanceOf(history.value, target, today, cutoff)
  }

  /** Once a prefix of the history raises, the whole history raises with the same error. */
  lemma {:induction false} RaiseIsFinal(rows: seq<RaceRow>, k: nat, target: Conditions, today: int, cutoff: int)
    requires k <= |rows|
    requires PerformanceOf(rows[..k], target, today, cutoff).Raise?
    ensures PerformanceOf(rows, target, today, cutoff) == PerformanceOf(rows[..k], target, today, cutoff)
    decreases |rows| - k
  {
    if k < |rows| {
      assert rows[..k + 1][..k] == rows[..k];
      RaiseIsFinal(rows, k + 1, target, today, cutoff);
    } else {
      assert rows[..k] == rows;
    }
  }

  lemma PerformanceOfPrefix(rows: seq<RaceRow>, i: nat, target: Conditions, today: int, cutoff: int)
    requires i < |rows|
    ensures PerformanceOf(rows[..i], target, today, cutoff).Raise? ==>
              PerformanceOf(rows[..i + 1], target, today, cutoff) == PerformanceOf(rows[..i], target, today, cutoff)
    ensures PerformanceOf(rows[..i], target, today, cutoff).Ok? ==>
              PerformanceOf(rows[..i + 1], target, today, cutoff)
              == Accumulate(PerformanceOf(rows[..i], target, today, cutoff).value, rows[i], target, today, cutoff)
  {
    assert rows[..i + 1][..i] == rows[..i];
  }

  /** calculate_past_performance_score: the loop over the history rows. */
  method CalculatePastPerformance(history: Option<seq<RaceRow>>, target: Conditions, today: int, cutoff: int)
    returns (r: Result<Performance>)
    ensures r == HistoryPerformance(history, target, today, cutoff)
  {
    if history.None? || history.value == [] {
      return Ok(NoPerformance);
    }
    var rows := history.value;
    var total, races, recent := 0.0, 0, 0.0;
    for i := 0 to |rows|
      invariant PerformanceOf(rows[..i], target, today, cutoff) == Ok(Performance(total, races, recent))
    {
      var row := rows[i];
      if row.date.None? {
        PerformanceStepUndated(rows, i, target, today, cutoff, Performance(total, races, recent));
        continue;
      }
      var parsedMargin := ParseMargin(row.margin);
      if parsedMargin.Raise? {
        PerformanceStepRaise(rows, i, target, today, cutoff, Performance(total, races, recent), parsedMargin.error);
        return Raise(parsedMargin.error);
      }
      var finalRaceScore := ScoreOfRace(row.rank, parsedMargin.value, today - row.date.value, row.conditions, target);
      PerformanceStepDated(rows, i, target, today, cutoff, Performance(total, races, recent), parsedMargin.value);
      total := total + finalRaceScore;
      races := races + 1;
      if row.date.value >= cutoff {
        recent := recent + finalRaceScore;
      }
    }
    assert rows[..|rows|] == rows;
    return Ok(Performance(total, races, recent));
  }

  // ---------------------------------------------------------------------------
  // What the fold computes

  /** The number of dated rows: the rows the fold counts as races. */
  function DatedCount(rows: seq<RaceRow>): (n: nat)
    ensures n <= |rows|
  {
    if rows == [] then 0
    else DatedCount(rows[..|rows| - 1]) + (if rows[|rows| - 1].date.Some? then 1 else 0)
  }

  /** Every dated row carries a margin parse_margin reads without raising. */
  predicate MarginsReadable(rows: seq<RaceRow>)
    decreases |rows|
  {
    rows != [] ==>
      && MarginsReadable(rows[..|rows| - 1])
      && (rows[|rows| - 1].date.Some? ==> ParseMargin(rows[|rows| - 1].margin).Ok?)
  }

  /** The fold counts exactly the dated rows, every counted race adds at least 0.1 to the
      total, and the recent subtotal lies between 0 and the total. */
  lemma {:induction false} PerformanceBounds(rows: seq<RaceRow>, target: Conditions, today: int, cutoff: int)
    requires PerformanceOf(rows, target, today, cutoff).Ok?
    ensures var p := PerformanceOf(rows, target, today, cutoff).value;
            && p.races == DatedCount(rows)
            && 0.0 <= p.recent <= p.total
            && p.total >= 0.1 * p.races as real
    decreases |rows|
  {
    if rows != [] {
      var front := rows[..|rows| - 1];
      PerformanceBounds(front, target, today, cutoff);
    }
  }

  lemma PerformanceOkStep(rows: seq<RaceRow>, target: Conditions, today: int, cutoff: int)
    requires rows != []
    ensures PerformanceOf(rows, target, today, cutoff).Ok? <==>
            PerformanceOf(rows[..|rows| - 1], target, today, cutoff).Ok? &&
            (rows[|rows| - 1].date.None? || ParseMargin(rows[|rows| - 1].margin).Ok?)
  {
  }

  /** The fold succeeds exactly when every dated row's margin reads. */
  lemma {:induction false} PerformanceOkIff(rows: seq<RaceRow>, target: Conditions, today: int, cutoff: int)
    ensures PerformanceOf(rows, target, today, cutoff).Ok? <==> MarginsReadable(rows)
    decreases |rows|
  {
    if rows != [] {
      var front := rows[..|rows| - 1];
      PerformanceOkIff(front, target, today, cutoff);
      PerformanceOkStep(rows, target, today, cutoff);
    }
  }

  /** A history whose dated races all fall before the cutoff has no recent subtotal. */
  lemma {:induction false} NoRecentRaces(rows: seq<RaceRow>, target: Conditions, today: int, cutoff: int)
    requires PerformanceOf(rows, target, today, cutoff).Ok?
    requires forall i :: 0 <= i < |rows| && rows[i].date.Some? ==> rows[i].date.value < cutoff
    ensures PerformanceOf(rows, target, today, cutoff).value.recent == 0.0
    decreases |rows|
  {
    if rows != [] {
      var front := rows[..|rows| - 1];
      assert forall i :: 0 <= i < |front| ==> front[i] == rows[i];
      NoRecentRaces(front, target, today, cutoff);
    }
  }

  /** A history whose dated races all fall on or after the cutoff has its whole total recent. */
  lemma {:induction false} AllRecentRaces(rows: seq<RaceRow>, target: Conditions, today: int, cutoff: int)
    requires PerformanceOf(rows, target, today, cutoff).Ok?
    requires forall i :: 0 <= i < |rows| && rows[i].date.Some? ==> rows[i].date.value >= cutoff
    ensures PerformanceOf(rows, target, today, cutoff).value.recent == PerformanceOf(rows, target, today, cutoff).value.total
    decreases |rows|
  {
    if rows != [] {
      var front := rows[..|rows| - 1];
      assert forall i :: 0 <= i < |front| ==> front[i] == rows[i];
      AllRecentRaces(front, target, today, cutoff);
    }
  }

  // ---------------------------------------------------------------------------
  // Popularity, fairness and the total score

  /** The popularity score of an integer rank. */
  function PopularityForRank(rank: int): (r: real)
    ensures r >= 0.0
  {
    if rank > 5 then Max(0.0, DefaultPopularityScore - (rank - 5) as real * 10.0)
    else if rank in PopularityScores then PopularityScores[rank]
    else DefaultPopularityScore
  }

  /** calculate_popularity_score: a missing rank, or one int() cannot read, scores the
      default; never negative. */
  function PopularityScore(popularity: Cell): (r: real)
    ensures r >= 0.0
    ensures r <= 500.0
  {
    if popularity.Blank? then DefaultPopularityScore
    else
      match CellToInt(popularity)
      case Some(rank) => PopularityForRank(rank)
      case None => DefaultPopularityScore
  }

  /** The popularity table in closed form: 500, 400, 300, 200, 100 for ranks 1 to 5, then 10
      less per rank from 50 (so 40 for rank 6) down to 0 from rank 10 on, and 50 for a rank
      of 0 or below. */
  lemma PopularityClosedForm(rank: int)
    ensures rank <= 0 ==> PopularityForRank(rank) == 50.0
    ensures 1 <= rank <= 5 ==> PopularityForRank(rank) == 600.0 - 100.0 * rank as real
    ensures 5 < rank < 10 ==> PopularityForRank(rank) == 100.0 - 10.0 * rank as real
    ensures rank >= 10 ==> PopularityForRank(rank) == 0.0
  {
    if 1 <= rank <= 5 {
      assert rank == 1 || rank == 2 || rank == 3 || rank == 4 || rank == 5;
    }
  }

  /** A better (smaller, from 1 on) popularity rank never scores less. */
  lemma PopularityMonotone(better: int, worse: int)
    requires 1 <= better <= worse
    ensures PopularityForRank(worse) <= PopularityForRank(better)
  {
    PopularityClosedForm(better);
    PopularityClosedForm(worse);
  }

  /** The fairness bonus for a horse with `races` dated races and recent subtotal `recent`. */
  function FairnessBonus(races: nat, recent: real): (r: real)
    ensures r >= 0.0
  {
    if 0 < races < MinRacesForFairness then
      var avg := recent / races as real;
      if avg > MinAvgScoreForFairness then
        PositiveProduct((MinRacesForFairness - races) as real, avg);
        (MinRacesForFairness - races) as real * avg * FairnessAdjustmentFactor
      else 0.0
    else 0.0
  }

  lemma PositiveProduct(a: real, b: real)
    requires a > 0.0 && b > 0.0
    ensures a * b * 0.5 > 0.0
  {
  }

  /** The bonus is positive exactly when 0 < races < 10 and the recent average recent / races
      exceeds 15, and it is then (10 - races) times that average times one half. */
  lemma FairnessBonusWhen(races: nat, recent: real)
    ensures FairnessBonus(races, recent) > 0.0
            <==> 0 < races < MinRacesForFairness && recent / races as real > MinAvgScoreForFairness
    ensures FairnessBonus(races, recent) != 0.0 ==>
              races > 0
              && FairnessBonus(races, recent)
                 == (MinRacesForFairness - races) as real * (recent / races as real) * FairnessAdjustmentFactor
  {
    if 0 < races < MinRacesForFairness && recent / races as real > MinAvgScoreForFairness {
      PositiveProduct((MinRacesForFairness - races) as real, recent / races as real);
    }
  }

  /** get_horse_total_score as a function of the horse-data oracle: a parent scores only its
      past-performance total; the horse itself adds the fairness bonus, the popularity score
      and half of each truthy parent's score. */
  function TotalScore(fetch: string -> HorseData, id: string, target: Conditions, popularity: Cell,
                      today: int, cutoff: int, isParent: bool): Result<real>
    decreases !isParent, 0
  {
    var data := fetch(id);
    var perf :- HistoryPerformance(data.history, target, today, cutoff);
    if isParent then Ok(perf.total)
    else
      var own := perf.total + FairnessBonus(perf.races, perf.recent) + PopularityScore(popularity);
      if data.parents.None? then Ok(own)
      else
        var sire :- ParentTerm(fetch, data.parents.value.sire, target, today, cutoff);
        var mare :- ParentTerm(fetch, data.parents.value.mare, target, today, cutoff);
        Ok(own + sire + mare)
  }

  /** A parent's weighted contribution: half its score when its id is truthy, else 0. */
  function ParentTerm(fetch: string -> HorseData, id: Option<string>, target: Conditions, today: int, cutoff: int): Result<real>
    decreases false, 1
  {
    if Truthy(id) then
      var score :- TotalScore(fetch, id.value, target, Blank, today, cutoff, true);
      Ok(score * ParentScoreMultiplier)
    else Ok(0.0)
  }

  /** TotalScore of a horse whose history and both parent terms are readable, as the sum of
      its terms. */
  lemma TotalScoreOfTerms(fetch: string -> HorseData, id: string, target: Conditions, popularity: Cell,
                              today: int, cutoff: int, perf: Performance, sire: real, mare: real)
    requires HistoryPerformance(fetch(id).history, target, today, cutoff) == Ok(perf)
    requires fetch(id).parents.Some?
    requires ParentTerm(fetch, fetch(id).parents.value.sire, target, today, cutoff) == Ok(sire)
    requires ParentTerm(fetch, fetch(id).parents.value.mare, target, today, cutoff) == Ok(mare)
    ensures TotalScore(fetch, id, target, popularity, today, cutoff, false)
            == Ok(perf.total + FairnessBonus(perf.races, perf.recent) + PopularityScore(popularity) + sire + mare)
  {
  }

  /** get_horse_total_score: accumulates the total step by step, recursing once for each
      truthy parent id with is_parent set. */
  method GetHorseTotalScore(fetch: string -> HorseData, id: string, target: Conditions, popularity: Cell,
                            today: int, cutoff: int, isParent: bool)
    returns (r: Result<real>)
    ensures r == TotalScore(fetch, id, target, popularity, today, cutoff, isParent)
    decreases !isParent
  {
    var totalScore := 0.0;
    var data := fetch(id);
    var past := CalculatePastPerformance(data.history, target, today, cutoff);
    if past.Raise? {
      return Raise(past.error);
    }
    var perf := past.value;
    totalScore := totalScore + perf.total;

    if !isParent && perf.races > 0 && perf.races < MinRacesForFairness {
      var avgScoreRecent := perf.recent / perf.races as real;
      if avgScoreRecent > MinAvgScoreForFairness {
        totalScore := totalScore + (MinRacesForFairness - perf.races) as real * avgScoreRecent * FairnessAdjustmentFactor;
      }
    }

    if isParent {
      return Ok(totalScore);
    }
    assert totalScore == perf.total + FairnessBonus(perf.races, perf.recent);
    totalScore := totalScore + PopularityScore(popularity);

    if data.parents.Some? {
      var ids := data.parents.value;
      ghost var own := totalScore;
      if Truthy(ids.sire) {
        var sire := GetHorseTotalScore(fetch, ids.sire.value, target, Blank, today, cutoff, true);
        if sire.Raise? {
          return sire;
        }
        totalScore := totalScore + sire.value * ParentScoreMultiplier;
      }
      assert ParentTerm(fetch, ids.sire, target, today, cutoff) == Ok(totalScore - own);
      ghost var withSire := totalScore;
      if Truthy(ids.mare) {
        var mare := GetHorseTotalScore(fetch, ids.mare.value, target, Blank, today, cutoff, true);
        if mare.Raise? {
          return mare;
        }
        totalScore := totalScore + mare.value * ParentScoreMultiplier;
      }
      assert ParentTerm(fetch, ids.mare, target, today, cutoff) == Ok(totalScore - withSire);
      TotalScoreOfTerms(fetch, id, target, popularity, today, cutoff, perf, withSire - own, totalScore - withSire);
    }
    return Ok(totalScore);
  }

  // ---------------------------------------------------------------------------
  // What the total score promises

  /** A history that is missing or whose dated rows all carry readable margins. */
  predicate HistoryReadable(history: Option<seq<RaceRow>>)
  {
    history.Some? ==> MarginsReadable(history.value)
  }

  /** The past-performance sums of a history: never negative totals, recent within total. */
  lemma HistoryBounds(history: Option<seq<RaceRow>>, target: Conditions, today: int, cutoff: int)
    ensures HistoryPerformance(history, target, today, cutoff).Ok? <==> HistoryReadable(history)
    ensures HistoryPerformance(history, target, today, cutoff).Ok? ==>
              0.0 <= HistoryPerformance(history, target, today, cutoff).value.recent
                  <= HistoryPerformance(history, target, today, cutoff).value.total
  {
    if history.Some? {
      PerformanceOkIff(history.value, target, today, cutoff);
      if HistoryPerformance(history, target, today, cutoff).Ok? {
        PerformanceBounds(history.value, target, today, cutoff);
      }
    }
  }

  /** A parent scores its past-performance total and nothing else: no fairness bonus, no
      popularity, no grandparents. */
  lemma ParentScoreIsPastTotal(fetch: string -> HorseData, id: string, target: Conditions, popularity: Cell,
                               today: int, cutoff: int)
    ensures var perf := HistoryPerformance(fetch(id).history, target, today, cutoff);
            var score := TotalScore(fetch, id, target, popularity, today, cutoff, true);
            && (score.Ok? <==> HistoryReadable(fetch(id).history))
            && (score.Ok? ==> score.value == perf.value.total && score.value >= 0.0)
  {
    HistoryBounds(fetch(id).history, target, today, cutoff);
  }

  /** A horse with listed parents scores its own past-performance total, its fairness bonus
      and its popularity score, plus half the past-performance total of each truthy parent. */
  lemma TotalScoreWithParents(fetch: string -> HorseData, id: string, target: Conditions, popularity: Cell,
                              today: int, cutoff: int, perf: Performance, sp: Performance, mp: Performance)
    requires HistoryPerformance(fetch(id).history, target, today, cutoff) == Ok(perf)
    requires fetch(id).parents.Some?
    requires var sire := fetch(id).parents.value.sire;
             Truthy(sire) ==> HistoryPerformance(fetch(sire.value).history, target, today, cutoff) == Ok(sp)
    requires var mare := fetch(id).parents.value.mare;
             Truthy(mare) ==> HistoryPerformance(fetch(mare.value).history, target, today, cutoff) == Ok(mp)
    ensures var ids := fetch(id).parents.value;
            TotalScore(fetch, id, target, popularity, today, cutoff, false)
            == Ok(perf.total + FairnessBonus(perf.races, perf.recent) + PopularityScore(popularity)
                  + (if Truthy(ids.sire) then 0.5 * sp.total else 0.0)
                  + (if Truthy(ids.mare) then 0.5 * mp.total else 0.0))
  {
    var ids := fetch(id).parents.value;
    var sire := if Truthy(ids.sire) then 0.5 * sp.total else 0.0;
    var mare := if Truthy(ids.mare) then 0.5 * mp.total else 0.0;
    if Truthy(ids.sire) {
      HistoryBounds(fetch(ids.sire.value).history, target, today, cutoff);
      ParentScoreIsPastTotal(fetch, ids.sire.value, target, Blank, today, cutoff);
    }
    assert ParentTerm(fetch, ids.sire, target, today, cutoff) == Ok(sire);
    if Truthy(ids.mare) {
      HistoryBounds(fetch(ids.mare.value).history, target, today, cutoff);
      ParentScoreIsPastTotal(fetch, ids.mare.value, target, Blank, today, cutoff);
    }
    assert ParentTerm(fetch, ids.mare, target, today, cutoff) == Ok(mare);
    TotalScoreOfTerms(fetch, id, target, popularity, today, cutoff, perf, sire, mare);
  }

  /** A parent's weighted term is never negative. */
  lemma ParentTermNonNegative(fetch: string -> HorseData, id: Option<string>, target: Conditions, today: int, cutoff: int)
    ensures ParentTerm(fetch, id, target, today, cutoff).Ok? ==> ParentTerm(fetch, id, target, today, cutoff).value >= 0.0
    ensures ParentTerm(fetch, id, target, today, cutoff).Ok? <==> !Truthy(id) || HistoryReadable(fetch(id.value).history)
  {
    if Truthy(id) {
      ParentScoreIsPastTotal(fetch, id.value, target, Blank, today, cutoff);
    }
  }

  /** A horse's own score is at least its past-performance total plus its fairness bonus and
      its popularity score, and never negative: the parents only add. */
  lemma OwnScoreLowerBound(fetch: string -> HorseData, id: string, target: Conditions, popularity: Cell,
                           today: int, cutoff: int)
    requires TotalScore(fetch, id, target, popularity, today, cutoff, false).Ok?
    ensures var perf := HistoryPerformance(fetch(id).history, target, today, cutoff).value;
            var score := TotalScore(fetch, id, target, popularity, today, cutoff, false).value;
            score >= perf.total + FairnessBonus(perf.races, perf.recent) + PopularityScore(popularity) >= 0.0
  {
    var data := fetch(id);
    HistoryBounds(data.history, target, today, cutoff);
    if data.parents.Some? {
      ParentTermNonNegative(fetch, data.parents.value.sire, target, today, cutoff);
      ParentTermNonNegative(fetch, data.parents.value.mare, target, today, cutoff);
    }
  }

  /** A horse's score raises exactly when its own history, or the history of a truthy parent
      it lists, holds a dated race whose margin parse_margin cannot evaluate. */
  lemma ScoreOkIff(fetch: string -> HorseData, id: string, target: Conditions, popularity: Cell,
                   today: int, cutoff: int)
    ensures var data := fetch(id);
            TotalScore(fetch, id, target, popularity, today, cutoff, false).Ok? <==>
              && HistoryReadable(data.history)
              && (data.parents.Some? ==>
                    && (Truthy(data.parents.value.sire) ==> HistoryReadable(fetch(data.parents.value.sire.value).history))
                    && (Truthy(data.parents.value.mare) ==> HistoryReadable(fetch(data.parents.value.mare.value).history)))
  {
    var data := fetch(id);
    HistoryBounds(data.history, target, today, cutoff);
    if data.parents.Some? {
      ParentTermNonNegative(fetch, data.parents.value.sire, target, today, cutoff);
      ParentTermNonNegative(fetch, data.parents.value.mare, target, today, cutoff);
    }
  }

  /** The score looks only one generation up: two horse-data sources that agree on the horse
      and on each truthy parent it lists give the same score. */
  lemma ScoreDependsOnParentsOnly(f: string -> HorseData, g: string -> HorseData, id: string, target: Conditions,
                                  popularity: Cell, today: int, cutoff: int)
    requires f(id) == g(id)
    requires f(id).parents.Some? && Truthy(f(id).parents.value.sire) ==>
               f(f(id).parents.value.sire.value) == g(f(id).parents.value.sire.value)
    requires f(id).parents.Some? && Truthy(f(id).parents.value.mare) ==>
               f(f(id).parents.value.mare.value) == g(f(id).parents.value.mare.value)
    ensures TotalScore(f, id, target, popularity, today, cutoff, false) == TotalScore(g, id, target, popularity, today, cutoff, false)
  {
  }
}
