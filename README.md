# keiba_yosou: horse scoring, trio recommendation and back-test

A Dafny model of the core of a netkeiba horse-racing predictor. It covers three parts.

- **Scorer** (`scorer.py`) scores each horse from its past races. The inputs are:
  - rank (着順), with 1st–5th worth 10/8/6/4/2 and anything else worth 1;
  - finishing margin (着差), read from the margin table, a number, or a mixed fraction such as "2 1/2" via `eval`;
  - recency, decaying linearly over 1095 days with a floor of 0.1;
  - similarity of distance, going and weather to the target race, up to 5 points.

  Races since the six-month cutoff are summed separately. The total adds:
  - a "fairness" (忖度) bonus for horses with few but strong recent runs;
  - a popularity score;
  - half the past-performance score of the sire and of the mare (one level only).
- **Ranking** (the body of `main()` in `main.py`) does five things:
  - scores every entry;
  - sorts the entries stably by score, highest first;
  - keeps the top 8;
  - takes `itertools.combinations(top8, 3)` in order;
  - writes each trio as gate numbers in ascending order and keeps the first 10.
- **Evaluate** (`evaluate.py`) runs the back-test:
  - classifies the payout-table rows into win (単勝), place (複勝) and wide (ワイド) results;
  - cleans the URL lines of the race file and cuts the list to the requested number;
  - turns each result URL into an entry-list URL and extracts its race id;
  - runs the prediction and counts the hits;
  - returns the wide hit rate as a percentage, or 0 when an exception stops the run.

The model has these files:

- `pybuiltins.dfy`: the Python and pandas behaviour the core relies on. This covers exceptions as `Result`, pandas cells, `str.strip`, `int()`/`float()` on text, the `eval` of margin fractions, `re.search(r'\d+')`, `in` and `str.replace`.
- `scorer.dfy`: the scoring functions. `calculate_past_performance_score` and `get_horse_total_score` are methods, each proved against a specification function.
- `combinations.dfy`: `itertools.combinations` over index ranges.
- `stablesort.dfy`: Python's stable `sorted(..., reverse=True)`.
- `ranking.dfy`: `main()`'s ranking and trio logic.
- `evaluate.dfy`: `get_actual_payouts`' classification and `evaluate_races`.

Some inputs enter the model as parameters rather than being computed:

- **Horse data.** `get_horse_data(horse_id)` is a function parameter `fetch`. It gives the race history (or `None`) and the parent ids.
- **The payout-table reader.** It gives the rows of a result page, or the exception raised while fetching it.
- **The predictor.** It is a function parameter of the evaluation.
- **Dates.** They are whole day numbers. The race date and the six-months-earlier cutoff are parameters.

Three points about the code as it stands, which the model follows:

- A missing margin, or one float() cannot read, counts as 100 (scorer.py:58, 71). Such a race gets no margin adjustment.
- The comment at scorer.py:179 says popularity rank 6 scores 90. The code gives max(0, 50 - 10·(rank-5)), which is 40 for rank 6.
- `main()` recommends trio combinations only (main.py:60-67). The win, place and wide bets that `evaluate_races` checks reach it only through the predictor parameter.

## Model

| member | source | states |
|---|---|---|
| Scorer.TrackTypeScore | scorer.py:34 | every going score, from the table or the default 0 for an unknown going, lies in 0..10 |
| Scorer.WeatherScore | scorer.py:36 | every weather score, from the table or the default 0 for an unknown weather, lies in 0..10 |
| Scorer.ParseMarginDigits | scorer.py:55-71 | a margin made of digits parses to its value, except "1", which the bonus table maps to 0.3 |
| Scorer.MarginBonusTokens | scorer.py:21-24 | only strings shorter than 5 characters, plus "1 1/4" and "1 1/2", are keys of the margin table |
| Scorer.ParseMargin | scorer.py:55-71 | definition of parse_margin: a missing margin is 100; a stripped table key gives its constant; text with a space is float(first part) + eval(second part), 100 when float fails, and eval's exception propagates; other text is float(text), or 100 when float fails |
| Scorer.ParseMarginMixed | scorer.py:64-68 | "a b/c" that is not a table key parses to a + b/c; a zero divisor's ZeroDivisionError escapes parse_margin, since only ValueError is caught |
| Scorer.MarginAdjustment | scorer.py:145 | the margin adjustment is non-negative, at most 1 for a non-negative margin, and 0 exactly when the margin is at least 100 |
| Scorer.DistanceTerm | scorer.py:79-87 | the distance term lies between 0 and 5 × 0.3 |
| Scorer.TrackTerm | scorer.py:90-94 | the going term lies between 0 and 5 × 0.4 |
| Scorer.WeatherTerm | scorer.py:97-101 | the weather term lies between 0 and 5 × 0.3 |
| Scorer.Metres | scorer.py:79-82 | definition of the distance read: int() of the first run of digits of the distance text, none when the text is missing or has no digit |
| Scorer.MetresOf | scorer.py:79-82 | the metres of a distance text such as "芝1200" are the value of its leftmost run of digits |
| Scorer.Closeness | scorer.py:92-94 | 1 - abs(a-b)/10 of two table scores lies in 0..1 |
| Scorer.Similarity | scorer.py:73-103 | the similarity bonus lies in 0..5 |
| Scorer.MetresNone | scorer.py:79-82 | the distance is unreadable exactly when it is missing or holds no digit |
| Scorer.DistanceTermExtremes | scorer.py:79-87 | full distance bonus iff both distances are readable and equal; none iff one is unreadable or they differ by 1000 m or more |
| Scorer.TrackTermExtremes | scorer.py:90-94 | full going bonus iff both goings are present with equal scores; none iff one is missing or the scores are 10 apart |
| Scorer.WeatherTermExtremes | scorer.py:97-101 | full weather bonus iff both weathers are present with equal scores; none iff one is missing or the scores are 10 apart |
| Scorer.ClosenessExtremes | scorer.py:92-93 | 1 - abs(a-b)/10 is 1 iff the scores are equal and 0 iff they are 10 apart |
| Scorer.SimilarityMaximal | scorer.py:73-103 | the similarity is 5 iff distance, going and weather all match as defined above |
| Scorer.SimilarityToItself | scorer.py:73-103 | a race compared with itself gets 5 iff its distance is readable and its going and weather are present |
| Scorer.RecencyFactor | scorer.py:150-151 | the factor is at least 0.1, at most 1 for past races, 1 on the race day, above 1 for future dates, and 0.1 exactly from 986 days on |
| Scorer.RankScore | scorer.py:133-141 | a rank score lies in 1..10 |
| Scorer.RankScoreClosedForm | scorer.py:11-18 | ranks 1..5 score 12 - 2·rank; missing, unreadable and other ranks score 1 |
| Scorer.ScoreOfRace | scorer.py:147-162 | one race's final score is at least 0.1 |
| Scorer.RaceScore | scorer.py:143-162 | a dated race scores iff its margin parses, and then at least 0.1 |
| Scorer.Accumulate | scorer.py:122-167 | definition of one loop iteration: an undated row is skipped; a dated row adds its score to the total, one to the count, and its score to the recent sum when on or after the cutoff; a raising margin ends the loop |
| Scorer.PerformanceOf | scorer.py:122-169 | definition of the loop: the iterations applied to the rows in order, the first exception ending it |
| Scorer.HistoryPerformance | scorer.py:113-114 | definition: a missing history scores (0, 0, 0), as an empty one does |
| Scorer.PerformanceStepDated | scorer.py:122-167 | one more dated row advances the running sums as the loop body does |
| Scorer.PerformanceStepUndated | scorer.py:123-125 | a row without a date leaves the sums unchanged |
| Scorer.PerformanceStepRaise | scorer.py:144 | a margin whose eval raises ends the whole calculation with that exception |
| Scorer.RaiseIsFinal | scorer.py:144 | once the calculation has raised, later rows do not change the outcome |
| Scorer.PerformanceOfPrefix | scorer.py:122-167 | the result after i+1 rows is the result after i rows plus row i, or the earlier exception |
| Scorer.CalculatePastPerformance | scorer.py:107-169 | the loop returns exactly the specified (total, races, recent), with zeros for a missing or empty history |
| Scorer.DatedCount | scorer.py:164 | the number of evaluated races never exceeds the number of rows |
| Scorer.PerformanceBounds | scorer.py:109-167 | races counts the dated rows; 0 <= recent <= total; total >= 0.1 × races |
| Scorer.PerformanceOkIff | scorer.py:144 | the calculation succeeds iff every dated row's margin parses |
| Scorer.NoRecentRaces | scorer.py:166-167 | with every dated race before the cutoff, the recent sum is 0 |
| Scorer.AllRecentRaces | scorer.py:166-167 | with every dated race on or after the cutoff, the recent sum equals the total |
| Scorer.PopularityForRank | scorer.py:175-181 | a popularity score for an integer rank is never negative |
| Scorer.PopularityScore | scorer.py:171-183 | the popularity score lies in 0..500 |
| Scorer.PopularityClosedForm | scorer.py:39-42 | ranks 1..5 score 600 - 100·rank, ranks 6..9 score 100 - 10·rank, ranks from 10 score 0, and ranks <= 0 score 50 |
| Scorer.PopularityMonotone | scorer.py:171-183 | a better positive rank never scores less |
| Scorer.FairnessBonus | scorer.py:201-206 | the fairness bonus is never negative |
| Scorer.FairnessBonusWhen | scorer.py:201-206 | the bonus is positive iff 0 < races < 10 and the recent average exceeds 15, and it is then (10 - races) × average × 0.5 |
| Scorer.TotalScore | scorer.py:185-231 | definition of get_horse_total_score: a parent scores its past total; a horse adds the fairness bonus, its popularity score and each parent term; the first exception escapes |
| Scorer.ParentTerm | scorer.py:216-228 | definition of one parent's contribution: half of its score as a parent when its id is truthy, else 0 |
| Scorer.TotalScoreWithParents | scorer.py:185-231 | a horse with listed parents scores its past-performance total + fairness bonus + popularity + 0.5 × the past-performance total of each truthy parent id (0 for a missing or empty id) |
| Scorer.GetHorseTotalScore | scorer.py:185-231 | the recursive method returns exactly the specified total, or the exception raised while computing it |
| Scorer.HistoryBounds | scorer.py:107-169 | the past performance of a history succeeds iff its margins parse, and then 0 <= recent <= total |
| Scorer.ParentScoreIsPastTotal | scorer.py:201-216 | a parent's score is its past-performance total: no fairness bonus, no popularity, no grandparents |
| Scorer.ParentTermNonNegative | scorer.py:216-228 | a parent's contribution is never negative; it fails only for a present parent whose margins do not parse |
| Scorer.OwnScoreLowerBound | scorer.py:189-213 | the total is at least the horse's own past performance + fairness bonus + popularity, which is non-negative |
| Scorer.ScoreOkIff | scorer.py:185-231 | the total succeeds iff the horse's margins parse and so do those of each present parent |
| Scorer.ScoreDependsOnParentsOnly | scorer.py:192-228 | the total depends only on the data of the horse and of its two parents |
| Ranking.ScoreEntries | main.py:26-46 | the loop yields the specified scores in entry order, or the first exception |
| Ranking.RowScore | main.py:30-39 | definition: one entry's score is get_horse_total_score of its horse id against the target race, with its expected popularity |
| Ranking.EntryScores | main.py:26-45 | definition of horse_scores: one record per entry in entry order; the first exception ends the loop |
| Ranking.EntriesRaiseIsFinal | main.py:30-45 | once one entry's score raised, later entries do not change the outcome |
| Ranking.EntryScoresOk | main.py:30-45 | scoring succeeds iff every entry's score succeeds |
| Ranking.EntryScoresPerRow | main.py:30-45 | on success there is one record per entry, holding its gate number, name, score and popularity |
| Ranking.RankOrder | main.py:49 | the ranking is a permutation of the scores, in descending score order, and entries with equal scores keep their input order |
| Ranking.Rank | main.py:49 | definition: the stable descending sort of the records by score |
| Ranking.SortedGatesSpec | main.py:63-64 | a trio's gate numbers come out in ascending order and are the trio's own three numbers |
| Ranking.TriosOf | main.py:60-64 | one trio per combination |
| Ranking.TriosOfAt | main.py:60-64 | the k-th trio is built from the k-th combination |
| Ranking.RecommendTrios | main.py:58-67 | the method returns exactly the first 10 trios of the top 8 |
| Ranking.TriosLoop | main.py:60-64 | the loop maps every combination to its trio, in order |
| Ranking.Pool | main.py:58 | definition: the first 8 ranked horses, or all of them when there are fewer |
| Ranking.AllTrios | main.py:60-64 | definition: the trio of every 3-combination of the pool, in itertools.combinations order |
| Ranking.Recommendations | main.py:58-67 | definition: the first 10 of those trios |
| Ranking.RecommendationCount | main.py:58-67 | the number of recommendations is min(10, C(min(n,8),3)): 0, 1, 4 or 10 |
| Ranking.RecommendationsAreFirstCombinations | main.py:58-67 | the trios come from all 3-combinations of the top 8, in lexicographic order, the k-th trio from the k-th combination |
| Ranking.TrioFromCombination | main.py:61-64 | a trio holds the gate numbers of three distinct top-8 horses, in ascending order |
| Ranking.Predict | main.py:20-67 | the prediction is the ranked list and the trios, or the exception that ended the scoring |
| Ranking.PredictionShape | main.py:20-76 | the prediction fails iff some entry's score raises; otherwise it ranks every entry and gives min(10, C(min(n,8),3)) trios |
| Combinations.Prepend | main.py:61 | prefixing keeps the count and puts the element in front of each combination |
| Combinations.Choose | main.py:61 | definition of itertools.combinations over positions lo..lo+m-1: those containing lo first, then those without it |
| Combinations.ChooseLength | main.py:61 | combinations(range(lo, lo+m), k) has C(m, k) elements |
| Combinations.ChooseSound | main.py:61 | every element is a strictly increasing k-tuple within the range |
| Combinations.ChooseComplete | main.py:61 | every strictly increasing k-tuple within the range is produced |
| Combinations.ChooseOrdered | main.py:61 | the combinations come out in lexicographic order |
| Combinations.TrioCounts | main.py:58-61 | C(m, 3) for m <= 8 is 0, 1, 4, 10, 20, 35 or 56 |
| StableSort.SortDescSorted | main.py:49 | sorted(reverse=True) output is in descending key order |
| StableSort.SortDescPermutes | main.py:49 | sorted output is a permutation of its input |
| StableSort.SortDescStable | main.py:49 | elements with equal keys keep their input order |
| StableSort.SortDesc | main.py:49 | definition: sorted(key, reverse=True) as an insertion sort |
| StableSort.Insert | main.py:49 | definition: one insertion, after every element whose key is at least the new one's |
| StableSort.InsertElements | main.py:49 | one insertion step adds exactly the inserted element |
| StableSort.InsertSorted | main.py:49 | one insertion step keeps the order descending |
| StableSort.InsertStable | main.py:49 | one insertion step places the element after all elements with the same key |
| Evaluate.AscendingPair | evaluate.py:41 | sorting a pair puts its smaller number first |
| Evaluate.WidePairs | evaluate.py:40-41 | an even-length number list gives half as many pairs |
| Evaluate.WidePairsAt | evaluate.py:40-41 | pair j holds numbers 2j and 2j+1, in ascending order |
| Evaluate.ClassifyPayouts | evaluate.py:18-43 | the loop over rows gives exactly the specified payouts dict |
| Evaluate.ApplyRow | evaluate.py:35-41 | definition of one row of the loop: the first of 単勝, 複勝, ワイド the header contains decides, a row with numbers replaces that entry, and a wide row with an odd count changes nothing |
| Evaluate.PayoutsOf | evaluate.py:18-43 | definition: the rows applied in order to the dict of three empty lists |
| Evaluate.ApplyRowEffect | evaluate.py:35-41 | a row changes only the entry its header selects, checked in the order win, place, wide; a wide row with an odd count changes nothing |
| Evaluate.LastRowWins | evaluate.py:35-41 | each kind's entry comes from the last row of that kind |
| Evaluate.NoRowEmpty | evaluate.py:18 | a kind with no row keeps its empty list |
| Evaluate.CleanLineStripped | evaluate.py:73 | a cleaned line neither starts nor ends with whitespace |
| Evaluate.CleanLineOfUrl | evaluate.py:73 | a line whose stripped text does not start with '-' is cleaned to its stripped text |
| Evaluate.CleanLineOfListItem | evaluate.py:73 | a line written as a list item, whitespace + a run of dashes + whitespace + URL + whitespace, is cleaned to the URL alone |
| Evaluate.CleanLine | evaluate.py:73 | definition: strip, then lstrip('-'), then strip |
| Evaluate.CleanLines | evaluate.py:73 | cleaning never yields more URLs than lines |
| Evaluate.CleanLinesOfUrls | evaluate.py:73 | lines that are all URLs are cleaned one for one to their stripped text |
| Evaluate.CleanLinesUrlLast | evaluate.py:73 | a URL line at the end adds its stripped text at the end |
| Evaluate.CleanLinesAppend | evaluate.py:73 | cleaning works line by line: it distributes over concatenation |
| Evaluate.CleanLinesDropsBlank | evaluate.py:73 | a blank line is dropped |
| Evaluate.SliceTo | evaluate.py:77-78 | race_urls[:n] is a prefix of length min(n, len) for n >= 0, and of length max(len+n, 0) for negative n |
| Evaluate.RaceUrls | evaluate.py:68-78 | definition: specific_urls when non-empty, else the cleaned lines of the race file cut to num_races_to_evaluate when that is set and non-zero; none when the file is missing |
| Evaluate.ShutubaUrl | evaluate.py:89 | definition: every "result.html" replaced by "shutuba.html" |
| Evaluate.RaceIdOf | evaluate.py:90-94 | a found race id is a non-empty run of digits that follows "race_id=" in the URL |
| Evaluate.RaceIdFound | evaluate.py:90-93 | a race id is found iff "race_id=" followed by a digit occurs in the URL |
| Evaluate.HitCountBounds | evaluate.py:119-131 | hits are at most the number of bets; all bets hit iff each is in the actual list; none hit iff none is |
| Evaluate.WideHitCountBound | evaluate.py:133-138 | wide hits are at most the number of wide bets |
| Evaluate.WideHitOrderFree | evaluate.py:134-136 | a wide bet hits regardless of the order of its two numbers, exactly when its sorted pair was paid |
| Evaluate.HitCount | evaluate.py:119-131 | definition: how many bets occur in the paid list |
| Evaluate.WideHitCount | evaluate.py:133-138 | definition: how many wide bets, each sorted, occur among the paid pairs |
| Evaluate.HitsOf | evaluate.py:119-138 | definition: the win, place and wide hits of one race, a missing bet key counting as no bets |
| Evaluate.CountHits | evaluate.py:119-138 | the three counting loops give exactly the specified hits |
| Evaluate.EvaluateRace | evaluate.py:85-140 | one URL is skipped, counted with its hits, or ends the evaluation, as specified |
| Evaluate.RaceStepOf | evaluate.py:85-140 | definition of one iteration: skip an empty URL or one without race id; end the run on a prediction or payout exception; count a race, with no hits when the prediction is empty |
| Evaluate.TallyOf | evaluate.py:80-144 | definition: the counters after the iterations in order, none once one ended the run |
| Evaluate.TallyAfterPrefix | evaluate.py:85-144 | counting up from the front agrees with the tally of the prefix |
| Evaluate.TallyAfterAll | evaluate.py:85-144 | counting up to the end gives the tally of all URLs |
| Evaluate.AbortIsFinal | evaluate.py:141-144 | once an exception ends the evaluation, no later URL revives it |
| Evaluate.RunRaces | evaluate.py:80-144 | the loop yields exactly the specified counters, or none when the handler returned 0 |
| Evaluate.EvaluateRaces | evaluate.py:66-159 | evaluate_races returns the specified rate |
| Evaluate.TallyRaces | evaluate.py:85-99 | total_races counts every non-empty URL whose race id is found, including races whose prediction was empty |
| Evaluate.TallyWideBound | evaluate.py:133-138 | with at most three wide bets per race, wide hits are at most 3 × races |
| Evaluate.WideRateBound | evaluate.py:147-148 | with at most three wide hits per race, the rate lies in 0..100 |
| Evaluate.WideRate | evaluate.py:147-159 | definition: total_wide_hits / (total_races × 3) × 100, or 0 when no race was counted |
| Evaluate.Evaluation | evaluate.py:66-159 | definition of evaluate_races' result: 0 for a missing file or a run ended by an exception, else the wide rate |
| Evaluate.RateIsPercentage | evaluate.py:147-159 | with at most three wide bets per race, evaluate_races returns a value in 0..100 |
| Evaluate.AsWrittenTally | evaluate.py:99-102 | with the call as written, the run ends by exception as soon as one URL is evaluated |
| Evaluate.MainAsCalled | evaluate.py:102 | definition: the call main(shutuba_url, lap_times) raises TypeError, since main takes no arguments (main.py:17) |
| Evaluate.AsWrittenAlwaysZero | evaluate.py:102 | with the call as written, evaluate_races always returns 0 |
| Evaluate.WorkingPredictionCounts | evaluate.py:98-156 | with a working predictor, three paid wide bets score 100, where the call as written scores 0 |
| PyBuiltins.LStripTrims | evaluate.py:73 | lstrip keeps a suffix, drops only whitespace, and stops at a non-space character |
| PyBuiltins.RStripTrims | evaluate.py:73 | rstrip keeps a prefix, drops only whitespace, and stops at a non-space character |
| PyBuiltins.StripTrims | evaluate.py:73 | strip keeps a contiguous piece with no whitespace at either end, dropping only whitespace |
| PyBuiltins.StripUnchanged | scorer.py:59 | text with no whitespace at either end is not changed by strip |
| PyBuiltins.StripAround | evaluate.py:73 | strip() of whitespace + text + whitespace, where the text has no whitespace at either end, is that text |
| PyBuiltins.LStripSpaces | evaluate.py:73 | lstrip() removes exactly the leading whitespace in front of a non-space character |
| PyBuiltins.RStripSpaces | evaluate.py:73 | rstrip() removes exactly the trailing whitespace after a non-space character |
| PyBuiltins.ParseInt | scorer.py:138 | definition of int() on text: surrounding whitespace, an optional sign and decimal digits; None stands for ValueError |
| PyBuiltins.ParseFloat | scorer.py:66-70 | definition of float() on text: surrounding whitespace, an optional sign, digits with an optional decimal point; None stands for ValueError |
| PyBuiltins.CellToInt | scorer.py:138 | definition of int() on a present cell: an integer as it is, a float truncated toward zero, text through int() |
| PyBuiltins.EvalFraction | scorer.py:67 | eval() of integer literals joined by "/", evaluated left to right: a zero divisor raises ZeroDivisionError, other text raises an eval error, and it never raises TypeError |
| PyBuiltins.LStripChar | evaluate.py:73 | lstrip('-') keeps a suffix that does not start with '-' and drops only '-' characters |
| PyBuiltins.LStripCharRun | evaluate.py:73 | lstrip(c) removes exactly a leading run of c in front of text that does not start with c |
| PyBuiltins.DigitPrefix | evaluate.py:90 | the maximal run of digits at the front |
| PyBuiltins.FirstDigitRun | scorer.py:81 | the match is a non-empty run of digits, and there is no match exactly when the text holds no digit |
| PyBuiltins.FirstDigitRunOf | scorer.py:81 | the match is the leftmost run of digits, taken whole: for text with no digit before `digits` and a non-digit (or the end) after, it is `digits` |
| PyBuiltins.DigitPrefixOf | evaluate.py:90 | the digit prefix of a digit run followed by a non-digit is that run |
| PyBuiltins.Replace | evaluate.py:89 | a URL without "result.html" is left as it is |
| PyBuiltins.ParseFloatOfDigits | scorer.py:70 | float() of a run of digits is its value |
| PyBuiltins.EvalLiteralQuotient | scorer.py:67 | eval("b/c") is b/c, or raises ZeroDivisionError when c is 0 |

## Left out

- Network and HTML parsing are not modelled. This covers `requests`, BeautifulSoup, `get_horse_data` in `data_fetcher.py` and the CSV read in `main.py:22`. Their results are parameters: horse data, payout-table rows, and the entry rows.
- Payout-table rows come already extracted as (header, numbers). The model does not parse HTML for them. Rows without a header or a Result cell (evaluate.py:25-26) are assumed to be dropped before the rows arrive. So are spans that are not digit strings, and the `int()` failure skip (evaluate.py:30-33).
- The model does not cover `get_race_lap_times` (evaluate.py:48-64). It never raises, and evaluate_races ignores its result except as an argument to the prediction call.
- `print` output is not modelled, and `time.sleep` (scorer.py:222, 229) is not modelled.
- The main.py except clauses (73-76) only print. Predict returns the exception instead, so a caller can see that the blanket `except Exception` produced no recommendations.
- Dates are not parsed. `pd.to_datetime(..., errors='coerce')` is not modelled: a race date is a day number or missing. The current date and `current_race_date - DateOffset(months=6)` are parameters `today` and `cutoff`.
- Floating point: scores are exact reals, so rounding is not modelled.
- `eval` is modelled only for integer literals joined by "/", evaluated left to right. Any other text raises an error the model does not name further.
- Digits (`\d`, `isdigit`, `int()`) are ASCII and full-width digits only. Other Unicode decimal digits are left out.
- Scorer.ParseMarginMixed: states the result only for "a b/c" with digit parts a, b and c. Other text with a space goes through the same modelled branch, but no lemma states its result.
- Scorer.PopularityForRank: covers integer ranks. For a float or text popularity cell, PopularityScore applies `int()` as `CellToInt` defines it.
- PyBuiltins.Replace: states only that a URL without "result.html" is unchanged. No lemma gives the result of a URL that contains it.
- The prediction result `predicted_horses` is modelled only by its length. Only its truthiness matters at evaluate.py:103.
- The `if not actual_payouts` branch (evaluate.py:108-110) is never taken, because the dict always has its three keys. The model has no path for it.
- `str(row['horse_id'])` (main.py:31): entry rows carry the id as a string.
- The margin, distance, going and weather cells enter as the text `str()` gives for them, with None for a missing value. A numeric cell is taken as already rendered to that text.
- PyBuiltins.ParseFloat: rejects the exponent ("1e3"), underscore ("1_0") and "inf"/"nan" forms that float() accepts. A margin written that way counts as unreadable (100) in the model.
- The prediction's bet dict is modelled with its three keys only. A non-empty dict holding only other keys is truthy at evaluate.py:103; Python then counts the race with no hits, and the model gives the same result through a prediction it treats as empty.
- `fetch` is one function of the horse id. `get_horse_data` makes a fresh request on each call, so a horse fetched twice (a sire shared by two entries) could get two different answers; the model assumes the same answer each time.

## Findings

| source | as written | input that shows it | evidently intended | confidence | as-written member | corrected member |
|---|---|---|---|---|---|---|
| evaluate.py:102 | `run_prediction(shutuba_url, lap_times)` calls `main()` from main.py:17, which takes no arguments. The TypeError is caught at evaluate.py:141, which returns 0. | any URL list with one evaluable URL, such as ["https://race.netkeiba.com/race/result.html?race_id=202510020411"] | a predictor that takes the entry-list URL and returns the ranked horses and the bets; the evaluation then returns the wide hit rate in 0..100 | not executed | Evaluate.AsWrittenAlwaysZero | Evaluate.RateIsPercentage |
