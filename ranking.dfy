/** The prediction run of main.py: score every horse of the entry list (shutuba) against the
    fixed target race, rank the horses by score, and recommend the first ten trio (三連複)
    combinations drawn from the eight best ranked horses, each written in gate-number
    (umaban) order. */
module Ranking {
  import opened PyBuiltins
  import opened Scorer
  import opened StableSort
  import opened Combinations

  // ---------------------------------------------------------------------------
  // Configuration

  const TargetDistance: string := "芝1200"
  const TargetTrackType: string := "良"
  const TargetWeather: string := "晴"
  const Target: Conditions := Conditions(Some(TargetDistance), Some(TargetTrackType), Some(TargetWeather))

  /** How many trio combinations are recommended. */
  const NumRecommendations: nat := 10
  /** How many of the best ranked horses the combinations are drawn from. */
  const PoolSize: nat := 8

  // ---------------------------------------------------------------------------
  // Data model

  /** One row of the entry list: horse id (as text), horse name, gate number and the
      expected popularity rank. */
  datatype EntryRow = EntryRow(horseId: string, name: string, umaban: int, popularity: Cell)

  /** One element of horse_scores. */
  datatype HorseScore = HorseScore(umaban: int, name: string, score: real, popularity: Cell)

  /** A recommended trio: three gate numbers in ascending order. */
  datatype Trio = Trio(first: int, second: int, third: int)

  /** What a prediction run computes: the ranked horses and the recommended trios. */
  datatype Prediction = Prediction(ranked: seq<HorseScore>, trios: seq<Trio>)

  // ---------------------------------------------------------------------------
  // Scoring every horse

  /** The total score of one entry row against the target race. */
  function RowScore(fetch: string -> HorseData, row: EntryRow, today: int, cutoff: int): Result<real>
  {
    TotalScore(fetch, row.horseId, Target, row.popularity, today, cutoff, false)
  }

  /** horse_scores after the loop over the rows; the first score that raises ends it. */
  function EntryScores(fetch: string -> HorseData, rows: seq<EntryRow>, today: int, cutoff: int): Result<seq<HorseScore>>
    decreases |rows|
  {
    if rows == [] then Ok([])
    else
      var scores :- EntryScores(fetch, rows[..|rows| - 1], today, cutoff);
      var row := rows[|rows| - 1];
      var score :- RowScore(fetch, row, today, cutoff);
      Ok(scores + [HorseScore(row.umaban, row.name, score, row.popularity)])
  }

  /** The horse_scores loop of main. */
  method ScoreEntries(fetch: string -> HorseData, rows: seq<EntryRow>, today: int, cutoff: int)
    returns (r: Result<seq<HorseScore>>)
    ensures r == EntryScores(fetch, rows, today, cutoff)
  {
    var horseScores: seq<HorseScore> := [];
    for i := 0 to |rows|
      invariant EntryScores(fetch, rows[..i], today, cutoff) == Ok(horseScores)
    {
      var row := rows[i];
      assert rows[..i + 1][..i] == rows[..i];
      var score := GetHorseTotalScore(fetch, row.horseId, Target, row.popularity, today, cutoff, false);
      if score.Raise? {
        EntriesRaiseIsFinal(fetch, rows, i + 1, today, cutoff);
        return Raise(score.error);
      }
      horseScores := horseScores + [HorseScore(row.umaban, row.name, score.value, row.popularity)];
    }
    assert rows[..|rows|] == rows;
    return Ok(horseScores);
  }

  /** Once a prefix of the rows raises, all the rows raise with the same error. */
  lemma {:induction false} EntriesRaiseIsFinal(fetch: string -> HorseData, rows: seq<EntryRow>, k: nat, today: int, cutoff: int)
    requires k <= |rows|
    requires EntryScores(fetch, rows[..k], today, cutoff).Raise?
    ensures EntryScores(fetch, rows, today, cutoff) == EntryScores(fetch, rows[..k], today, cutoff)
    decreases |rows| - k
  {
    if k < |rows| {
      assert rows[..k + 1][..k] == rows[..k];
      EntriesRaiseIsFinal(fetch, rows, k + 1, today, cutoff);
    } else {
      assert rows[..k] == rows;
    }
  }

  /** Scoring succeeds exactly when every row's score does. */
  lemma {:induction false} EntryScoresOk(fetch: string -> HorseData, rows: seq<EntryRow>, today: int, cutoff: int)
    ensures EntryScores(fetch, rows, today, cutoff).Ok?
            <==> forall i :: 0 <= i < |rows| ==> RowScore(fetch, rows[i], today, cutoff).Ok?
    decreases |rows|
  {
    if rows != [] {
      var init := rows[..|rows| - 1];
      var last := rows[|rows| - 1];
      EntryScoresOk(fetch, init, today, cutoff);
      if EntryScores(fetch, init, today, cutoff).Ok? && RowScore(fetch, last, today, cutoff).Ok? {
        forall i | 0 <= i < |rows|
          ensures RowScore(fetch, rows[i], today, cutoff).Ok?
        {
          if i < |init| {
            assert init[i] == rows[i];
          }
        }
      } else if EntryScores(fetch, init, today, cutoff).Ok? {
        assert !RowScore(fetch, rows[|rows| - 1], today, cutoff).Ok?;
      } else {
        var i :| 0 <= i < |init| && !RowScore(fetch, init[i], today, cutoff).Ok?;
        assert init[i] == rows[i];
      }
    }
  }

  /** A successful scoring gives one entry per row, in row order, carrying the row's gate
      number, name and popularity and its score. */
  lemma {:induction false} EntryScoresPerRow(fetch: string -> HorseData, rows: seq<EntryRow>, today: int, cutoff: int)
    ensures EntryScores(fetch, rows, today, cutoff).Ok? ==>
              var scores := EntryScores(fetch, rows, today, cutoff).value;
              |scores| == |rows|
              && forall i :: 0 <= i < |rows| ==>
                   RowScore(fetch, rows[i], today, cutoff).Ok? &&
                   scores[i] == HorseScore(rows[i].umaban, rows[i].name,
                                           RowScore(fetch, rows[i], today, cutoff).value, rows[i].popularity)
    decreases |rows|
  {
    if rows != [] {
      var init := rows[..|rows| - 1];
      EntryScoresPerRow(fetch, init, today, cutoff);
      assert forall i :: 0 <= i < |init| ==> init[i] == rows[i];
    }
  }

  // ---------------------------------------------------------------------------
  // Ranking

  /** The sort key of horse_scores: the score. */
  function ScoreKey(h: HorseScore): real { h.score }

  /** sorted(horse_scores, key=score, reverse=True). */
  function Rank(scores: seq<HorseScore>): (ranked: seq<HorseScore>)
  {
    SortDesc(scores, ScoreKey)
  }

  /** The ranking is a reordering of the scored horses, best score first, in which horses
      with equal scores keep their entry-list order. */
  lemma RankOrder(scores: seq<HorseScore>, v: real)
    ensures multiset(Rank(scores)) == multiset(scores)
    ensures forall i, j :: 0 <= i < j < |Rank(scores)| ==> Rank(scores)[i].score >= Rank(scores)[j].score
    ensures WithKey(Rank(scores), ScoreKey, v) == WithKey(scores, ScoreKey, v)
  {
    SortDescPermutes(scores, ScoreKey);
    SortDescSorted(scores, ScoreKey);
    SortDescStable(scores, ScoreKey, v);
  }

  // ---------------------------------------------------------------------------
  // Trio recommendations

  /** The gate numbers a, b and c in ascending order. For three horses with these gate
      numbers, sorted(combo, key=umaban) lists them in this order, so this is the tuple of
      their gate numbers main builds. */
  function SortedGates(a: int, b: int, c: int): Trio
  {
    if a <= b then
      if b <= c then Trio(a, b, c)
      else if a <= c then Trio(a, c, b)
      else Trio(c, a, b)
    else
      if a <= c then Trio(b, a, c)
      else if b <= c then Trio(b, c, a)
      else Trio(c, b, a)
  }

  /** A sorted trio holds the same three gate numbers, in ascending order. */
  lemma SortedGatesSpec(a: int, b: int, c: int)
    ensures var t := SortedGates(a, b, c);
            t.first <= t.second <= t.third && multiset{t.first, t.second, t.third} == multiset{a, b, c}
  {
  }

  /** The trio of one combination of pool positions. */
  function TrioOf(pool: seq<HorseScore>, c: seq<nat>): Trio
    requires |c| == 3 && c[0] < |pool| && c[1] < |pool| && c[2] < |pool|
  {
    SortedGates(pool[c[0]].umaban, pool[c[1]].umaban, pool[c[2]].umaban)
  }

  /** sorted_horses[:8]. */
  function Pool(ranked: seq<HorseScore>): (pool: seq<HorseScore>)
  {
    ranked[..if |ranked| <= PoolSize then |ranked| else PoolSize]
  }

  /** The trios of the combinations cs of pool positions, in the order of cs. */
  function TriosOf(pool: seq<HorseScore>, cs: seq<seq<nat>>): (trios: seq<Trio>)
    requires TriplesBelow(cs, |pool|)
    ensures |trios| == |cs|
    decreases |cs|
  {
    if cs == [] then [] else TriosOf(pool, cs[..|cs| - 1]) + [TrioOf(pool, cs[|cs| - 1])]
  }

  /** The k-th trio is the trio of the k-th combination. */
  lemma {:induction false} TriosOfAt(pool: seq<HorseScore>, cs: seq<seq<nat>>, k: nat)
    requires TriplesBelow(cs, |pool|) && k < |cs|
    ensures TriosOf(pool, cs)[k] == TrioOf(pool, cs[k])
    decreases |cs|
  {
    if k < |cs| - 1 {
      TriosOfAt(pool, cs[..|cs| - 1], k);
    }
  }

  /** One more combination, one more trio at the end. */
  lemma TriosOfStep(pool: seq<HorseScore>, cs: seq<seq<nat>>, i: nat)
    requires TriplesBelow(cs, |pool|) && i < |cs|
    ensures TriplesBelow(cs[..i], |pool|) && TriplesBelow(cs[..i + 1], |pool|)
    ensures TriosOf(pool, cs[..i + 1]) == TriosOf(pool, cs[..i]) + [TrioOf(pool, cs[i])]
  {
    TriplesPrefix(cs, |pool|, i);
    TriplesPrefix(cs, |pool|, i + 1);
    assert cs[..i + 1][..i] == cs[..i];
  }

  /** The trios of every combination of the pool, in itertools.combinations order. */
  function AllTrios(pool: seq<HorseScore>): (trios: seq<Trio>)
  {
    ChooseTriples(|pool|);
    TriosOf(pool, Choose(0, |pool|, 3))
  }

  /** recommended_combinations[:NUM_RECOMMENDATIONS]. */
  function Recommendations(ranked: seq<HorseScore>): (trios: seq<Trio>)
  {
    var all := AllTrios(Pool(ranked));
    all[..if |all| <= NumRecommendations then |all| else NumRecommendations]
  }

  /** The trio loop of main, then the cut to NUM_RECOMMENDATIONS. */
  method RecommendTrios(ranked: seq<HorseScore>) returns (trios: seq<Trio>)
    ensures trios == Recommendations(ranked)
  {
    var pool := Pool(ranked);
    var combos := Choose(0, |pool|, 3);
    ChooseTriples(|pool|);
    var recommended := TriosLoop(pool, combos);
    trios := recommended[..if |recommended| <= NumRecommendations then |recommended| else NumRecommendations];
  }

  /** The loop of recommend_trios: one trio per combination, in the combinations' order. */
  method TriosLoop(pool: seq<HorseScore>, combos: seq<seq<nat>>) returns (recommended: seq<Trio>)
    requires TriplesBelow(combos, |pool|)
    ensures recommended == TriosOf(pool, combos)
  {
    recommended := [];
    for i := 0 to |combos|
      invariant TriplesBelow(combos[..i], |pool|) && recommended == TriosOf(pool, combos[..i])
    {
      TriosOfStep(pool, combos, i);
      recommended := recommended + [TrioOf(pool, combos[i])];
    }
    assert combos[..|combos|] == combos;
  }

  /** The number of recommendations: min(10, C(min(n, 8), 3)) for n ranked horses, that is
      none for fewer than three horses, 1 for three, 4 for four and 10 from five on. */
  lemma RecommendationCount(ranked: seq<HorseScore>)
    ensures var m := MinNat(|ranked|, PoolSize);
            |Recommendations(ranked)| == MinNat(NumRecommendations, Binom(m, 3))
    ensures |Recommendations(ranked)|
            == if |ranked| < 3 then 0 else if |ranked| == 3 then 1 else if |ranked| == 4 then 4 else 10
  {
    var m := MinNat(|ranked|, PoolSize);
    ChooseLength(0, m, 3);
    TrioCounts(m);
  }

  /** The k-th recommendation is the trio of the k-th 3-combination of the pool positions,
      where the combinations are exactly the strictly increasing position triples below
      min(n, 8), listed in lexicographic order, so the recommendations are the trios of the
      first (at most) ten such triples. */
  lemma RecommendationsAreFirstCombinations(ranked: seq<HorseScore>)
    ensures var pool := Pool(ranked);
            var combos := Choose(0, |pool|, 3);
            && |pool| == MinNat(|ranked|, PoolSize)
            && (forall c :: c in combos <==> IsCombination(c, 0, |pool|, 3))
            && LexSorted(combos)
            && TriplesBelow(combos, |pool|)
            && |Recommendations(ranked)| <= |combos|
            && forall k :: 0 <= k < |Recommendations(ranked)| ==> Recommendations(ranked)[k] == TrioOf(pool, combos[k])
  {
    var pool := Pool(ranked);
    var combos := Choose(0, |pool|, 3);
    ChooseSound(0, |pool|, 3);
    ChooseTriples(|pool|);
    forall k | 0 <= k < |Recommendations(ranked)|
      ensures Recommendations(ranked)[k] == TrioOf(pool, combos[k])
    {
      TriosOfAt(pool, combos, k);
    }
    ChooseOrdered(0, |pool|, 3);
    forall c | IsCombination(c, 0, |pool|, 3)
      ensures c in combos
    {
      ChooseComplete(0, |pool|, 3, c);
    }
  }

  /** The trio of a combination of pool positions c0 < c1 < c2 lists, in ascending order,
      the gate numbers of the horses ranked c0, c1 and c2, all among the best min(n, 8). */
  lemma TrioFromCombination(ranked: seq<HorseScore>, c: seq<nat>)
    requires IsCombination(c, 0, |Pool(ranked)|, 3)
    ensures 0 <= c[0] < c[1] < c[2] < MinNat(|ranked|, PoolSize)
    ensures var t := TrioOf(Pool(ranked), c);
            && t.first <= t.second <= t.third
            && multiset{t.first, t.second, t.third} == multiset{ranked[c[0]].umaban, ranked[c[1]].umaban, ranked[c[2]].umaban}
  {
    var pool := Pool(ranked);
    SortedGatesSpec(pool[c[0]].umaban, pool[c[1]].umaban, pool[c[2]].umaban);
    assert pool[c[0]] == ranked[c[0]] && pool[c[1]] == ranked[c[1]] && pool[c[2]] == ranked[c[2]];
  }

  // ---------------------------------------------------------------------------
  // The whole run

  /** What main computes: an exception escaping a score ends the run (main's except clause
      reports it); otherwise the ranking and the recommendations. */
  function PredictionOf(fetch: string -> HorseData, rows: seq<EntryRow>, today: int, cutoff: int): Result<Prediction>
  {
    var scores :- EntryScores(fetch, rows, today, cutoff);
    var ranked := Rank(scores);
    Ok(Prediction(ranked, Recommendations(ranked)))
  }

  /** main, lines 26 to 67: the scoring loop, the ranking and the trio loop. */
  method Predict(fetch: string -> HorseData, rows: seq<EntryRow>, today: int, cutoff: int)
    returns (r: Result<Prediction>)
    ensures r == PredictionOf(fetch, rows, today, cutoff)
  {
    var horseScores :- ScoreEntries(fetch, rows, today, cutoff);
    var sortedHorses := SortDesc(horseScores, ScoreKey);
    var trios := RecommendTrios(sortedHorses);
    return Ok(Prediction(sortedHorses, trios));
  }

  /** A run either fails because some horse's score raises, or ranks every horse of the entry
      list and recommends min(10, C(min(n, 8), 3)) trios. */
  lemma PredictionShape(fetch: string -> HorseData, rows: seq<EntryRow>, today: int, cutoff: int)
    ensures PredictionOf(fetch, rows, today, cutoff).Raise?
            <==> exists i :: 0 <= i < |rows| && RowScore(fetch, rows[i], today, cutoff).Raise?
    ensures PredictionOf(fetch, rows, today, cutoff).Ok? ==>
              var p := PredictionOf(fetch, rows, today, cutoff).value;
              |p.ranked| == |rows|
              && |p.trios| == MinNat(NumRecommendations, Binom(MinNat(|rows|, PoolSize), 3))
  {
    EntryScoresOk(fetch, rows, today, cutoff);
    EntryScoresPerRow(fetch, rows, today, cutoff);
    if EntryScores(fetch, rows, today, cutoff).Ok? {
      var scores := EntryScores(fetch, rows, today, cutoff).value;
      SortDescPermutes(scores, ScoreKey);
      assert |Rank(scores)| == |multiset(Rank(scores))| == |multiset(scores)| == |scores|;
      RecommendationCount(Rank(scores));
    }
  }
}
