/** The back-test of evaluate.py: result-page URLs are cleaned and turned into entry-list
    URLs and race ids, each race is predicted, its payout table is classified into win
    (単勝), place (複勝) and wide (ワイド) results, the recommended bets are matched against
    them, and the wide hit rate is reported. HTTP, HTML parsing and the predictor are
    parameters: `fetchRows` gives the (header, numbers) rows of a result page or the exception
    that fetching it raised, `predict` gives what the prediction call returns. */
module Evaluate {
  import opened PyBuiltins
  import opened StableSort

  // ---------------------------------------------------------------------------
  // Payout tables

  const TanshoLabel: string := "単勝"
  const FukushoLabel: string := "複勝"
  const WideLabel: string := "ワイド"

  /** One row of the payout tables: the header text and the numbers read from its result cell. */
  datatype PayoutRow = PayoutRow(header: string, numbers: seq<int>)

  /** The payouts dict: winning gate numbers, placing gate numbers and winning wide pairs. */
  datatype Payouts = Payouts(tansho: seq<int>, fukusho: seq<int>, wide: seq<seq<int>>)

  /** The dict get_actual_payouts starts from. */
  const NoPayouts := Payouts([], [], [])

  /** The sort key under which StableSort's descending sort is Python's ascending sorted(). */
  function Negated(x: int): real { -(x as real) }

  /** sorted(xs): ascending. */
  function Ascending(xs: seq<int>): seq<int>
  {
    SortDesc(xs, Negated)
  }

  /** A sorted pair holds its smaller number first. */
  lemma AscendingPair(a: int, b: int)
    ensures Ascending([a, b]) == if a <= b then [a, b] else [b, a]
  {
    assert [a, b][..1] == [a];
    assert [a][..0] == [];
    assert SortDesc([a], Negated) == [a];
    assert Insert([a], b, Negated) == if a <= b then [a] + Insert([], b, Negated) else [b, a];
  }

  /** [tuple(sorted(numbers[i:i+2])) for i in range(0, len(numbers), 2)]. */
  function WidePairs(ns: seq<int>): (pairs: seq<seq<int>>)
    requires |ns| % 2 == 0
    ensures |pairs| == |ns| / 2
    decreases |ns|
  {
    if ns == [] then [] else [Ascending(ns[..2])] + WidePairs(ns[2..])
  }

  /** The j-th wide pair is numbers 2j and 2j + 1, smaller first. */
  lemma {:induction false} WidePairsAt(ns: seq<int>, j: nat)
    requires |ns| % 2 == 0 && j < |ns| / 2
    ensures WidePairs(ns)[j] == [ns[2 * j], ns[2 * j + 1]] || WidePairs(ns)[j] == [ns[2 * j + 1], ns[2 * j]]
    ensures |WidePairs(ns)[j]| == 2 && WidePairs(ns)[j][0] <= WidePairs(ns)[j][1]
    decreases |ns|
  {
    var pair := WidePairs(ns)[j];
    if j == 0 {
      assert ns[..2] == [ns[0], ns[1]];
      AscendingPair(ns[0], ns[1]);
    } else {
      WidePairsAt(ns[2..], j - 1);
      assert pair == WidePairs(ns[2..])[j - 1];
      assert ns[2..][2 * (j - 1)] == ns[2 * j] && ns[2..][2 * (j - 1) + 1] == ns[2 * j + 1];
    }
  }

  /** One row of the loop in get_actual_payouts: the first of 単勝, 複勝 and ワイド that the
      header contains decides the entry, and a row with numbers replaces that entry; a wide
      row with an odd count of numbers changes nothing. */
  function ApplyRow(p: Payouts, row: PayoutRow): Payouts
  {
    if Contains(row.header, TanshoLabel) && row.numbers != [] then p.(tansho := row.numbers)
    else if Contains(row.header, FukushoLabel) && row.numbers != [] then p.(fukusho := row.numbers)
    else if Contains(row.header, WideLabel) && row.numbers != [] then
      if |row.numbers| % 2 == 0 then p.(wide := WidePairs(row.numbers)) else p
    else p
  }

  /** The payouts after the rows, in order. */
  function PayoutsOf(rows: seq<PayoutRow>): Payouts
    decreases |rows|
  {
    if rows == [] then NoPayouts else ApplyRow(PayoutsOf(rows[..|rows| - 1]), rows[|rows| - 1])
  }

  /** get_actual_payouts, lines 28 to 41, on rows already read from the page. */
  method ClassifyPayouts(rows: seq<PayoutRow>) returns (payouts: Payouts)
    ensures payouts == PayoutsOf(rows)
  {
    payouts := NoPayouts;
    for i := 0 to |rows|
      invariant payouts == PayoutsOf(rows[..i])
    {
      assert rows[..i + 1][..i] == rows[..i];
      var header := rows[i].header;
      var numbers := rows[i].numbers;
      if Contains(header, TanshoLabel) && numbers != [] {
        payouts := payouts.(tansho := numbers);
      } else if Contains(header, FukushoLabel) && numbers != [] {
        payouts := payouts.(fukusho := numbers);
      } else if Contains(header, WideLabel) && numbers != [] {
        if |numbers| % 2 == 0 {
          payouts := payouts.(wide := WidePairs(numbers));
        }
      }
    }
    assert rows[..|rows|] == rows;
  }

  /** The three entries of the payouts dict. */
  datatype Kind = Win | Place | WideKind

  /** The entry a row sets, if any: numbers, first matching label wins. */
  function RowKind(row: PayoutRow): Option<Kind>
  {
    if row.numbers == [] then None
    else if Contains(row.header, TanshoLabel) then Some(Win)
    else if Contains(row.header, FukushoLabel) then Some(Place)
    else if Contains(row.header, WideLabel) && |row.numbers| % 2 == 0 then Some(WideKind)
    else None
  }

  /** An entry of the dict, whatever its kind. */
  datatype Entry = Numbers(ns: seq<int>) | Pairs(ps: seq<seq<int>>)

  function EntryOf(p: Payouts, kind: Kind): Entry
  {
    match kind
    case Win => Numbers(p.tansho)
    case Place => Numbers(p.fukusho)
    case WideKind => Pairs(p.wide)
  }

  /** What a row of that kind stores. */
  function RowEntry(row: PayoutRow, kind: Kind): Entry
    requires RowKind(row) == Some(kind)
  {
    if kind == WideKind then Pairs(WidePairs(row.numbers)) else Numbers(row.numbers)
  }

  /** A row changes only the entry of its kind, and sets that entry to what the row holds;
      a row of no kind (no numbers, no label, an odd wide count) changes nothing. */
  lemma ApplyRowEffect(p: Payouts, row: PayoutRow, kind: Kind)
    ensures RowKind(row) == Some(kind) ==> EntryOf(ApplyRow(p, row), kind) == RowEntry(row, kind)
    ensures RowKind(row) != Some(kind) ==> EntryOf(ApplyRow(p, row), kind) == EntryOf(p, kind)
  {
  }

  /** The last row of a kind decides that entry; later rows of other kinds do not touch it. */
  lemma {:induction false} LastRowWins(rows: seq<PayoutRow>, kind: Kind, j: nat)
    requires j < |rows| && RowKind(rows[j]) == Some(kind)
    requires forall k :: j < k < |rows| ==> RowKind(rows[k]) != Some(kind)
    ensures EntryOf(PayoutsOf(rows), kind) == RowEntry(rows[j], kind)
    decreases |rows|
  {
    var front := rows[..|rows| - 1];
    ApplyRowEffect(PayoutsOf(front), rows[|rows| - 1], kind);
    if j < |rows| - 1 {
      LastRowWins(front, kind, j);
    }
  }

  /** Without a row of a kind that entry stays empty. */
  lemma {:induction false} NoRowEmpty(rows: seq<PayoutRow>, kind: Kind)
    requires forall k :: 0 <= k < |rows| ==> RowKind(rows[k]) != Some(kind)
    ensures EntryOf(PayoutsOf(rows), kind) == EntryOf(NoPayouts, kind)
    decreases |rows|
  {
    if rows != [] {
      var front := rows[..|rows| - 1];
      ApplyRowEffect(PayoutsOf(front), rows[|rows| - 1], kind);
      NoRowEmpty(front, kind);
    }
  }

  // ---------------------------------------------------------------------------
  // Race URLs

  /** `line.strip().lstrip('-').strip()`. */
  function CleanLine(line: string): string
  {
    Strip(LStripChar(Strip(line), '-'))
  }

  /** A cleaned line has no whitespace at either end. */
  lemma CleanLineStripped(line: string)
    ensures var c := CleanLine(line);
            c == [] || (!IsSpace(c[0]) && !IsSpace(c[|c| - 1]))
  {
    StripTrims(LStripChar(Strip(line), '-'));
  }

  /** The line holds a URL: something other than whitespace, not starting with '-'. */
  predicate UrlLine(line: string)
  {
    Strip(line) != [] && Strip(line)[0] != '-'
  }

  /** A line holding a URL between whitespace gives that URL back. */
  lemma CleanLineOfUrl(line: string)
    requires UrlLine(line)
    ensures CleanLine(line) == Strip(line)
  {
    StripTrims(line);
    StripUnchanged(Strip(line));
  }

  /** A line written as a list item, "- url" with a run of dashes and any whitespace around,
      is cleaned to the URL alone. */
  lemma CleanLineOfListItem(lead: string, dashes: string, gap: string, url: string, tail: string)
    requires forall i :: 0 <= i < |lead| ==> IsSpace(lead[i])
    requires dashes != [] && forall i :: 0 <= i < |dashes| ==> dashes[i] == '-'
    requires forall i :: 0 <= i < |gap| ==> IsSpace(gap[i])
    requires url != [] && url[0] != '-' && !IsSpace(url[0]) && !IsSpace(url[|url| - 1])
    requires forall i :: 0 <= i < |tail| ==> IsSpace(tail[i])
    ensures CleanLine(lead + dashes + gap + url + tail) == url
  {
    var item := dashes + (gap + url);
    assert lead + dashes + gap + url + tail == lead + item + tail;
    assert item[|item| - 1] == url[|url| - 1];
    StripAround(lead, item, tail);
    LStripCharRun(dashes, gap + url, '-');
    assert gap + url == gap + url + [];
    StripAround(gap, url, []);
  }

  /** [line.strip().lstrip('-').strip() for line in f if line.strip()]. */
  function CleanLines(lines: seq<string>): (urls: seq<string>)
    ensures |urls| <= |lines|
    decreases |lines|
  {
    if lines == [] then []
    else
      var last := lines[|lines| - 1];
      CleanLines(lines[..|lines| - 1]) + (if Strip(last) != [] then [CleanLine(last)] else [])
  }

  /** Every kept line is cleaned, and lines of URLs come out as those URLs, none dropped. */
  lemma {:induction false} CleanLinesOfUrls(lines: seq<string>)
    requires forall k :: 0 <= k < |lines| ==> UrlLine(lines[k])
    ensures |CleanLines(lines)| == |lines|
    ensures forall k :: 0 <= k < |lines| ==> CleanLines(lines)[k] == Strip(lines[k])
    decreases |lines|
  {
    if lines != [] {
      var front := lines[..|lines| - 1];
      var last := lines[|lines| - 1];
      assert forall k :: 0 <= k < |front| ==> UrlLine(front[k]) by {
        forall k | 0 <= k < |front| ensures UrlLine(front[k]) { assert front[k] == lines[k]; }
      }
      CleanLinesOfUrls(front);
      CleanLinesUrlLast(lines);
      var urls := CleanLines(lines);
      forall k | 0 <= k < |lines|
        ensures urls[k] == Strip(lines[k])
      {
        if k < |front| {
          assert urls[k] == CleanLines(front)[k];
        }
      }
    }
  }

  /** A last line holding a URL adds that URL at the end. */
  lemma CleanLinesUrlLast(lines: seq<string>)
    requires lines != []
    requires UrlLine(lines[|lines| - 1])
    ensures CleanLines(lines) == CleanLines(lines[..|lines| - 1]) + [Strip(lines[|lines| - 1])]
  {
    CleanLineOfUrl(lines[|lines| - 1]);
  }

  /** Cleaning works line by line. */
  lemma {:induction false} CleanLinesAppend(a: seq<string>, b: seq<string>)
    ensures CleanLines(a + b) == CleanLines(a) + CleanLines(b)
    decreases |b|
  {
    if b == [] {
      assert a + b == a;
    } else {
      var front := b[..|b| - 1];
      assert (a + b)[..|a + b| - 1] == a + front;
      assert (a + b)[|a + b| - 1] == b[|b| - 1];
      CleanLinesAppend(a, front);
    }
  }

  /** Blank lines are dropped. */
  lemma CleanLinesDropsBlank(a: seq<string>, blank: string, b: seq<string>)
    requires Strip(blank) == []
    ensures CleanLines(a + [blank] + b) == CleanLines(a) + CleanLines(b)
  {
    assert [blank][..0] == [];
    assert CleanLines([blank]) == [];
    CleanLinesAppend(a, [blank]);
    assert CleanLines(a + [blank]) == CleanLines(a);
    CleanLinesAppend(a + [blank], b);
  }

  /** xs[:n], Python's slice for any integer n. */
  function SliceTo(xs: seq<string>, n: int): (r: seq<string>)
    ensures r <= xs
    ensures n >= 0 ==> |r| == MinNat(n, |xs|)
    ensures n < 0 ==> |r| == if |xs| + n >= 0 then |xs| + n else 0
  {
    if n >= 0 then (if n <= |xs| then xs[..n] else xs)
    else if |xs| + n >= 0 then xs[..|xs| + n] else []
  }

  /** The URLs evaluate_races walks: specific_urls when given, otherwise the cleaned lines
      of the race file, cut to num_races_to_evaluate when that is neither None nor 0; None
      when the file is missing. */
  function RaceUrls(specific: seq<string>, fileLines: Option<seq<string>>, limit: Option<int>): Option<seq<string>>
  {
    if specific != [] then Some(specific)
    else if fileLines.None? then None
    else
      var urls := CleanLines(fileLines.value);
      if limit.Some? && limit.value != 0 then Some(SliceTo(urls, limit.value)) else Some(urls)
  }

  /** result_url.replace('result.html', 'shutuba.html'). */
  function ShutubaUrl(resultUrl: string): string
  {
    Replace(resultUrl, "result.html", "shutuba.html")
  }

  const RaceIdKey: string := "race_id="

  /** re.search(r'race_id=(\d+)', url).group(1): the digits after the leftmost "race_id="
      that is followed by a digit, as many as follow. */
  function RaceIdOf(url: string): (r: Option<string>)
    ensures r.Some? ==> r.value != [] && AllDigits(r.value) && Contains(url, RaceIdKey + r.value)
    decreases |url|
  {
    if url == [] then None
    else if RaceIdKey <= url && |RaceIdKey| < |url| && IsDigit(url[|RaceIdKey|]) then
      var rest := url[|RaceIdKey|..];
      var digits := DigitPrefix(rest);
      assert url == RaceIdKey + rest;
      assert RaceIdKey + digits <= url;
      Some(digits)
    else
      RaceIdOf(url[1..])
  }

  /** "race_id=" followed by a digit starts at position i of the URL. */
  predicate KeyAt(url: string, i: nat)
  {
    i + |RaceIdKey| < |url| && RaceIdKey <= url[i..] && IsDigit(url[i + |RaceIdKey|])
  }

  /** A race id is found exactly when "race_id=" followed by a digit occurs somewhere. */
  lemma {:induction false} RaceIdFound(url: string)
    ensures RaceIdOf(url).Some? <==> exists i: nat :: KeyAt(url, i)
    decreases |url|
  {
    if url == [] {
    } else if RaceIdKey <= url && |RaceIdKey| < |url| && IsDigit(url[|RaceIdKey|]) {
      KeyAtStart(url);
    } else {
      var t := url[1..];
      RaceIdFound(t);
      KeyAtStart(url);
      if i: nat :| KeyAt(url, i) {
        KeyAtShift(url, i);
      }
      if i: nat :| KeyAt(t, i) {
        KeyAtShift(url, i + 1);
      }
    }
  }

  /** The key at the very start of the URL. */
  lemma KeyAtStart(url: string)
    ensures KeyAt(url, 0) <==> RaceIdKey <= url && |RaceIdKey| < |url| && IsDigit(url[|RaceIdKey|])
  {
    assert url[0..] == url;
  }

  /** Dropping the first character moves every later occurrence one place to the left. */
  lemma KeyAtShift(url: string, i: nat)
    requires 0 < i
    ensures KeyAt(url, i) <==> url != [] && KeyAt(url[1..], i - 1)
  {
    if i <= |url| && url != [] {
      assert url[1..][i - 1..] == url[i..];
    }
  }

  // ---------------------------------------------------------------------------
  // Hits

  /** The recommended bets the prediction returns: each key of the dict may be missing. */
  datatype Bets = Bets(tansho: Option<seq<int>>, fukusho: Option<seq<int>>, wide: Option<seq<seq<int>>>)

  /** What the prediction call returns: the predicted horses (only their number matters here)
      and the recommended bets. */
  datatype Forecast = Forecast(horseCount: nat, bets: Bets)

  /** d.get(key, []). */
  function GetOrEmpty<T>(entry: Option<seq<T>>): seq<T>
  {
    if entry.Some? then entry.value else []
  }

  /** `predicted_horses and recommended_bets`: a non-empty list and a non-empty dict. */
  predicate Usable(f: Forecast)
  {
    f.horseCount != 0 && (f.bets.tansho.Some? || f.bets.fukusho.Some? || f.bets.wide.Some?)
  }

  /** How many bets occur in the actual list. */
  function HitCount(bets: seq<int>, actual: seq<int>): nat
    decreases |bets|
  {
    if bets == [] then 0
    else HitCount(bets[..|bets| - 1], actual) + (if bets[|bets| - 1] in actual then 1 else 0)
  }

  /** Never more hits than bets; all bets hit exactly when each occurs in the actual list, and
      none exactly when none does. */
  lemma {:induction false} HitCountBounds(bets: seq<int>, actual: seq<int>)
    ensures HitCount(bets, actual) <= |bets|
    ensures HitCount(bets, actual) == |bets| <==> forall k :: 0 <= k < |bets| ==> bets[k] in actual
    ensures HitCount(bets, actual) == 0 <==> forall k :: 0 <= k < |bets| ==> bets[k] !in actual
    decreases |bets|
  {
    if bets != [] {
      var front := bets[..|bets| - 1];
      HitCountBounds(front, actual);
      assert forall k :: 0 <= k < |front| ==> front[k] == bets[k];
    }
  }

  /** How many wide bets, each sorted, occur among the actual wide pairs. */
  function WideHitCount(bets: seq<seq<int>>, actual: seq<seq<int>>): nat
    decreases |bets|
  {
    if bets == [] then 0
    else WideHitCount(bets[..|bets| - 1], actual) + (if Ascending(bets[|bets| - 1]) in actual then 1 else 0)
  }

  /** Never more wide hits than wide bets. */
  lemma {:induction false} WideHitCountBound(bets: seq<seq<int>>, actual: seq<seq<int>>)
    ensures WideHitCount(bets, actual) <= |bets|
    decreases |bets|
  {
    if bets != [] {
      WideHitCountBound(bets[..|bets| - 1], actual);
    }
  }

  /** A wide bet hits whichever way round its pair is written. */
  lemma WideHitOrderFree(a: int, b: int, actual: seq<seq<int>>)
    ensures WideHitCount([[a, b]], actual) == WideHitCount([[b, a]], actual)
    ensures WideHitCount([[a, b]], actual) == if [MinInt(a, b), MaxInt(a, b)] in actual then 1 else 0
  {
    AscendingPair(a, b);
    AscendingPair(b, a);
    assert [[a, b]][..0] == [] && [[b, a]][..0] == [];
  }

  function MinInt(a: int, b: int): int { if a <= b then a else b }
  function MaxInt(a: int, b: int): int { if a <= b then b else a }

  /** The hits of one race. */
  datatype RaceHits = RaceHits(tansho: nat, fukusho: nat, wide: nat)

  function HitsOf(bets: Bets, actual: Payouts): RaceHits
  {
    RaceHits(HitCount(GetOrEmpty(bets.tansho), actual.tansho),
             HitCount(GetOrEmpty(bets.fukusho), actual.fukusho),
             WideHitCount(GetOrEmpty(bets.wide), actual.wide))
  }

  /** The three hit loops of evaluate_races, lines 119 to 138. */
  method CountHits(bets: Bets, actual: Payouts) returns (hits: RaceHits)
    ensures hits == HitsOf(bets, actual)
  {
    var tanshoBets := GetOrEmpty(bets.tansho);
    var tanshoHits := 0;
    for k := 0 to |tanshoBets|
      invariant tanshoHits == HitCount(tanshoBets[..k], actual.tansho)
    {
      assert tanshoBets[..k + 1][..k] == tanshoBets[..k];
      if tanshoBets[k] in actual.tansho {
        tanshoHits := tanshoHits + 1;
      }
    }
    var fukushoBets := GetOrEmpty(bets.fukusho);
    var fukushoHits := 0;
    for k := 0 to |fukushoBets|
      invariant fukushoHits == HitCount(fukushoBets[..k], actual.fukusho)
    {
      assert fukushoBets[..k + 1][..k] == fukushoBets[..k];
      if fukushoBets[k] in actual.fukusho {
        fukushoHits := fukushoHits + 1;
      }
    }
    var wideBets := GetOrEmpty(bets.wide);
    var wideHits := 0;
    for k := 0 to |wideBets|
      invariant wideHits == WideHitCount(wideBets[..k], actual.wide)
    {
      assert wideBets[..k + 1][..k] == wideBets[..k];
      if Ascending(wideBets[k]) in actual.wide {
        wideHits := wideHits + 1;
      }
    }
    assert tanshoBets[..|tanshoBets|] == tanshoBets;
    assert fukushoBets[..|fukushoBets|] == fukushoBets;
    assert wideBets[..|wideBets|] == wideBets;
    hits := RaceHits(tanshoHits, fukushoHits, wideHits);
  }

  // ---------------------------------------------------------------------------
  // The evaluation loop

  /** What one URL contributes: nothing (skipped), a counted race with its hits, or the end of
      the evaluation (an exception caught by the loop's handler, which returns 0). */
  datatype RaceStep = Skip | Counted(hits: RaceHits) | Abort

  /** A URL the loop evaluates: not empty, and its entry-list URL holds a race id. */
  predicate Evaluated(url: string)
  {
    url != [] && RaceIdOf(ShutubaUrl(url)).Some?
  }

  /** One iteration of the loop over race_urls. */
  function RaceStepOf(url: string, predict: string -> Result<Forecast>,
                      fetchRows: string -> Result<seq<PayoutRow>>): RaceStep
  {
    if !Evaluated(url) then Skip
    else
      match predict(ShutubaUrl(url))
      case Raise(_) => Abort
      case Ok(f) =>
        if !Usable(f) then Counted(RaceHits(0, 0, 0))
        else
          match fetchRows(url)
          case Raise(_) => Abort
          case Ok(rows) => Counted(HitsOf(f.bets, PayoutsOf(rows)))
  }

  /** The body of the loop over race_urls for one URL: `continue` is Skip, the handler's
      `return 0` is Abort, and a race that reaches the prediction is Counted (total_races is
      raised before the prediction is made), with no hits when the prediction is empty. */
  method EvaluateRace(resultUrl: string, predict: string -> Result<Forecast>,
                      fetchRows: string -> Result<seq<PayoutRow>>) returns (step: RaceStep)
    ensures step == RaceStepOf(resultUrl, predict, fetchRows)
  {
    if resultUrl == [] {
      return Skip;
    }
    var shutubaUrl := ShutubaUrl(resultUrl);
    var raceId := RaceIdOf(shutubaUrl);
    if raceId.None? {
      return Skip;
    }
    var forecast := predict(shutubaUrl);
    if forecast.Raise? {
      return Abort;
    }
    if !Usable(forecast.value) {
      return Counted(RaceHits(0, 0, 0));
    }
    var rows := fetchRows(resultUrl);
    if rows.Raise? {
      return Abort;
    }
    var actual := ClassifyPayouts(rows.value);
    var hits := CountHits(forecast.value.bets, actual);
    return Counted(hits);
  }

  /** The four counters of evaluate_races. */
  datatype Tally = Tally(races: nat, tansho: nat, fukusho: nat, wide: nat)

  /** The counters after one more URL. */
  function Advance(t: Option<Tally>, step: RaceStep): Option<Tally>
  {
    match t
    case None => None
    case Some(t) =>
      match step
      case Skip => Some(t)
      case Abort => None
      case Counted(h) => Some(Tally(t.races + 1, t.tansho + h.tansho, t.fukusho + h.fukusho, t.wide + h.wide))
  }

  /** The counters after the URLs, or None once an exception ended the evaluation. */
  function TallyOf(urls: seq<string>, predict: string -> Result<Forecast>,
                   fetchRows: string -> Result<seq<PayoutRow>>): Option<Tally>
    decreases |urls|
  {
    if urls == [] then Some(Tally(0, 0, 0, 0))
    else Advance(TallyOf(urls[..|urls| - 1], predict, fetchRows), RaceStepOf(urls[|urls| - 1], predict, fetchRows))
  }

  /** The counters after the first n URLs, counted up from the front as the loop does. */
  function TallyAfter(urls: seq<string>, n: nat, predict: string -> Result<Forecast>,
                      fetchRows: string -> Result<seq<PayoutRow>>): Option<Tally>
    requires n <= |urls|
  {
    if n == 0 then Some(Tally(0, 0, 0, 0))
    else Advance(TallyAfter(urls, n - 1, predict, fetchRows), RaceStepOf(urls[n - 1], predict, fetchRows))
  }

  /** One more URL advances the counters by its step. */
  lemma TallyAfterNext(urls: seq<string>, i: nat, predict: string -> Result<Forecast>,
                       fetchRows: string -> Result<seq<PayoutRow>>, step: RaceStep)
    requires i < |urls| && step == RaceStepOf(urls[i], predict, fetchRows)
    ensures TallyAfter(urls, i + 1, predict, fetchRows) == Advance(TallyAfter(urls, i, predict, fetchRows), step)
  {
  }

  /** Counting the first n URLs is counting the prefix of length n. */
  lemma {:induction false} TallyAfterPrefix(urls: seq<string>, n: nat, predict: string -> Result<Forecast>,
                                            fetchRows: string -> Result<seq<PayoutRow>>)
    requires n <= |urls|
    ensures TallyAfter(urls, n, predict, fetchRows) == TallyOf(urls[..n], predict, fetchRows)
  {
    if n > 0 {
      TallyAfterPrefix(urls, n - 1, predict, fetchRows);
      assert urls[..n][..n - 1] == urls[..n - 1];
    }
  }

  /** Counting all the URLs from the front gives the counters of the whole list. */
  lemma TallyAfterAll(urls: seq<string>, predict: string -> Result<Forecast>,
                      fetchRows: string -> Result<seq<PayoutRow>>)
    ensures TallyAfter(urls, |urls|, predict, fetchRows) == TallyOf(urls, predict, fetchRows)
  {
    TallyAfterPrefix(urls, |urls|, predict, fetchRows);
    assert urls[..|urls|] == urls;
  }

  /** Once ended, the evaluation stays ended. */
  lemma {:induction false} AbortIsFinal(urls: seq<string>, i: nat, predict: string -> Result<Forecast>,
                                        fetchRows: string -> Result<seq<PayoutRow>>)
    requires i <= |urls| && TallyAfter(urls, i, predict, fetchRows).None?
    ensures TallyAfter(urls, |urls|, predict, fetchRows).None?
    decreases |urls| - i
  {
    if i < |urls| {
      AbortIsFinal(urls, i + 1, predict, fetchRows);
    }
  }

  /** (total_wide_hits / (total_races * 3)) * 100, or 0 when no race was counted. */
  function WideRate(t: Tally): real
  {
    if t.races > 0 then (t.wide as real) / ((t.races * 3) as real) * 100.0 else 0.0
  }

  /** What evaluate_races returns. */
  function Evaluation(specific: seq<string>, fileLines: Option<seq<string>>, limit: Option<int>,
                      predict: string -> Result<Forecast>, fetchRows: string -> Result<seq<PayoutRow>>): real
  {
    match RaceUrls(specific, fileLines, limit)
    case None => 0.0
    case Some(urls) =>
      match TallyOf(urls, predict, fetchRows)
      case None => 0.0
      case Some(t) => WideRate(t)
  }

  /** The loop of evaluate_races over the race URLs: the counters at the end, or None when
      the exception handler returned 0. */
  method RunRaces(raceUrls: seq<string>, predict: string -> Result<Forecast>,
                  fetchRows: string -> Result<seq<PayoutRow>>) returns (tally: Option<Tally>)
    ensures tally == TallyOf(raceUrls, predict, fetchRows)
  {
    var totalRaces: nat, totalTansho: nat, totalFukusho: nat, totalWide: nat := 0, 0, 0, 0;
    for i := 0 to |raceUrls|
      invariant TallyAfter(raceUrls, i, predict, fetchRows) == Some(Tally(totalRaces, totalTansho, totalFukusho, totalWide))
    {
      var step := EvaluateRace(raceUrls[i], predict, fetchRows);
      TallyAfterNext(raceUrls, i, predict, fetchRows, step);
      match step {
        case Skip =>
        case Abort =>
          AbortIsFinal(raceUrls, i + 1, predict, fetchRows);
          TallyAfterAll(raceUrls, predict, fetchRows);
          return None;
        case Counted(hits) =>
          totalRaces := totalRaces + 1;
          totalTansho := totalTansho + hits.tansho;
          totalFukusho := totalFukusho + hits.fukusho;
          totalWide := totalWide + hits.wide;
      }
    }
    TallyAfterAll(raceUrls, predict, fetchRows);
    tally := Some(Tally(totalRaces, totalTansho, totalFukusho, totalWide));
  }

  /** evaluate_races, with the race file's lines (None when it is missing), the predictor
      and the payout-table reader as parameters. */
  method EvaluateRaces(specific: seq<string>, fileLines: Option<seq<string>>, limit: Option<int>,
                       predict: string -> Result<Forecast>, fetchRows: string -> Result<seq<PayoutRow>>)
    returns (rate: real)
    ensures rate == Evaluation(specific, fileLines, limit, predict, fetchRows)
  {
    var raceUrls: seq<string>;
    if specific != [] {
      raceUrls := specific;
    } else {
      if fileLines.None? {
        return 0.0;
      }
      raceUrls := CleanLines(fileLines.value);
      if limit.Some? && limit.value != 0 {
        raceUrls := SliceTo(raceUrls, limit.value);
      }
    }
    var tally := RunRaces(raceUrls, predict, fetchRows);
    if tally.None? {
      return 0.0;
    }
    rate := WideRate(tally.value);
  }

  // ---------------------------------------------------------------------------
  // Properties of the tally

  /** How many URLs the loop evaluates. */
  function EvaluatedCount(urls: seq<string>): nat
    decreases |urls|
  {
    if urls == [] then 0
    else EvaluatedCount(urls[..|urls| - 1]) + (if Evaluated(urls[|urls| - 1]) then 1 else 0)
  }

  /** Every evaluated URL counts as a race, also when its prediction is empty (the counter is
      raised before the prediction), and no other URL does. */
  lemma {:induction false} TallyRaces(urls: seq<string>, predict: string -> Result<Forecast>,
                                      fetchRows: string -> Result<seq<PayoutRow>>)
    ensures TallyOf(urls, predict, fetchRows).Some? ==> TallyOf(urls, predict, fetchRows).value.races == EvaluatedCount(urls)
    decreases |urls|
  {
    if urls != [] {
      TallyRaces(urls[..|urls| - 1], predict, fetchRows);
    }
  }

  /** Predictions of at most three wide bets give at most three wide hits per race. */
  lemma {:induction false} TallyWideBound(urls: seq<string>, predict: string -> Result<Forecast>,
                                          fetchRows: string -> Result<seq<PayoutRow>>)
    requires forall u :: predict(u).Ok? ==> |GetOrEmpty(predict(u).value.bets.wide)| <= 3
    ensures TallyOf(urls, predict, fetchRows).Some? ==>
              TallyOf(urls, predict, fetchRows).value.wide <= 3 * TallyOf(urls, predict, fetchRows).value.races
    decreases |urls|
  {
    if urls != [] {
      TallyWideBound(urls[..|urls| - 1], predict, fetchRows);
      var url := urls[|urls| - 1];
      if Evaluated(url) && predict(ShutubaUrl(url)).Ok? {
        var f := predict(ShutubaUrl(url)).value;
        if Usable(f) && fetchRows(url).Ok? {
          WideHitCountBound(GetOrEmpty(f.bets.wide), PayoutsOf(fetchRows(url).value).wide);
        }
      }
    }
  }

  /** With at most three wide bets per race the rate is a percentage. */
  lemma RateIsPercentage(specific: seq<string>, fileLines: Option<seq<string>>, limit: Option<int>,
                         predict: string -> Result<Forecast>, fetchRows: string -> Result<seq<PayoutRow>>)
    requires forall u :: predict(u).Ok? ==> |GetOrEmpty(predict(u).value.bets.wide)| <= 3
    ensures 0.0 <= Evaluation(specific, fileLines, limit, predict, fetchRows) <= 100.0
  {
    var urls := RaceUrls(specific, fileLines, limit);
    if urls.Some? {
      TallyWideBound(urls.value, predict, fetchRows);
      var t := TallyOf(urls.value, predict, fetchRows);
      if t.Some? {
        WideRateBound(t.value);
      }
    }
  }

  /** At most three wide bets per counted race keep the rate within 0 to 100. */
  lemma WideRateBound(t: Tally)
    requires t.wide <= 3 * t.races
    ensures 0.0 <= WideRate(t) <= 100.0
  {
    if t.races > 0 {
      var w := t.wide as real;
      var d := (t.races * 3) as real;
      assert w <= d;
      assert w / d <= 1.0;
    }
  }

  // ---------------------------------------------------------------------------
  // The prediction call as written

  /** run_prediction(shutuba_url, lap_times) as written: main takes no arguments, so the call
      raises TypeError before main's body runs. */
  function MainAsCalled(shutubaUrl: string): Result<Forecast>
  {
    Raise(TypeError)
  }

  /** evaluate_races with that call. */
  function EvaluationAsWritten(specific: seq<string>, fileLines: Option<seq<string>>, limit: Option<int>,
                               fetchRows: string -> Result<seq<PayoutRow>>): real
  {
    Evaluation(specific, fileLines, limit, MainAsCalled, fetchRows)
  }

  /** With that call nothing is ever counted: either no URL is evaluated, or the first one
      ends the evaluation. */
  lemma {:induction false} AsWrittenTally(urls: seq<string>, fetchRows: string -> Result<seq<PayoutRow>>)
    ensures TallyOf(urls, MainAsCalled, fetchRows) == (if EvaluatedCount(urls) == 0 then Some(Tally(0, 0, 0, 0)) else None)
    decreases |urls|
  {
    if urls != [] {
      AsWrittenTally(urls[..|urls| - 1], fetchRows);
    }
  }

  /** As written, evaluate_races returns 0 whatever the races and their results. */
  lemma AsWrittenAlwaysZero(specific: seq<string>, fileLines: Option<seq<string>>, limit: Option<int>,
                            fetchRows: string -> Result<seq<PayoutRow>>)
    ensures EvaluationAsWritten(specific, fileLines, limit, fetchRows) == 0.0
  {
    var urls := RaceUrls(specific, fileLines, limit);
    if urls.Some? {
      AsWrittenTally(urls.value, fetchRows);
    }
  }

  /** With a prediction that returns its bets, a race whose three wide bets all hit gives a
      rate of 100, where the call as written gives 0. */
  lemma WorkingPredictionCounts(url: string, bets: seq<seq<int>>, rows: seq<PayoutRow>)
    requires Evaluated(url) && |bets| == 3
    requires forall k :: 0 <= k < 3 ==> Ascending(bets[k]) in PayoutsOf(rows).wide
    ensures Evaluation([url], None, None, u => Ok(Forecast(1, Bets(None, None, Some(bets)))), u => Ok(rows)) == 100.0
    ensures EvaluationAsWritten([url], None, None, u => Ok(rows)) == 0.0
  {
    var actual := PayoutsOf(rows).wide;
    assert bets[..2][..1] == bets[..1] && bets[..1][..0] == [];
    assert WideHitCount(bets[..1], actual) == 1;
    assert WideHitCount(bets[..2], actual) == 2;
    assert WideHitCount(bets, actual) == 3;
    var predict := u => Ok(Forecast(1, Bets(None, None, Some(bets))));
    var fetchRows := u => Ok(rows);
    assert RaceStepOf(url, predict, fetchRows) == Counted(RaceHits(0, 0, 3));
    assert [url][..0] == [];
    assert TallyOf([url], predict, fetchRows) == Some(Tally(1, 0, 0, 3));
    AsWrittenAlwaysZero([url], None, None, u => Ok(rows));
  }
}
