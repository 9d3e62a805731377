/** itertools.combinations over positions: the k-element selections of the positions
    lo, ..., n - 1, each listed in increasing position order, in the lexicographic order in
    which itertools emits them. */
module Combinations {

  /** Strictly increasing positions: a selection lists each position once, in order. */
  predicate Increasing(c: seq<nat>)
  {
    forall i, j :: 0 <= i < j < |c| ==> c[i] < c[j]
  }

  /** Every position of the selection lies in [lo, hi). */
  predicate Within(c: seq<nat>, lo: nat, hi: nat)
  {
    forall i :: 0 <= i < |c| ==> lo <= c[i] < hi
  }

  /** A k-combination of the positions lo, ..., n - 1. */
  predicate IsCombination(c: seq<nat>, lo: nat, n: nat, k: nat)
  {
    |c| == k && Increasing(c) && Within(c, lo, n)
  }

  /** Strict lexicographic order on position sequences. */
  predicate LexLess(a: seq<nat>, b: seq<nat>)
  {
    exists p :: 0 <= p < |a| && p < |b| && a[..p] == b[..p] && a[p] < b[p]
  }

  /** Each selection comes lexicographically before every later one. */
  predicate LexSorted(cs: seq<seq<nat>>)
  {
    forall i, j :: 0 <= i < j < |cs| ==> LexLess(cs[i], cs[j])
  }

  /** x put in front of every selection of cs. */
  function Prepend(x: nat, cs: seq<seq<nat>>): (r: seq<seq<nat>>)
    ensures |r| == |cs|
    ensures forall i :: 0 <= i < |r| ==> r[i] == [x] + cs[i]
  {
    seq(|cs|, i requires 0 <= i < |cs| => [x] + cs[i])
  }

  /** itertools.combinations(range(lo, lo + m), k): the selections that take lo come first,
      then those that do not. */
  function Choose(lo: nat, m: nat, k: nat): seq<seq<nat>>
    decreases m
  {
    if k == 0 then [[]]
    else if m == 0 then []
    else Prepend(lo, Choose(lo + 1, m - 1, k - 1)) + Choose(lo + 1, m - 1, k)
  }

  /** The binomial coefficient by Pascal's rule. */
  function Binom(m: nat, k: nat): nat
  {
    if k == 0 then 1
    else if m == 0 then 0
    else Binom(m - 1, k - 1) + Binom(m - 1, k)
  }

  /** There are exactly C(m, k) selections. */
  lemma {:induction false} ChooseLength(lo: nat, m: nat, k: nat)
    ensures |Choose(lo, m, k)| == Binom(m, k)
    decreases m
  {
    if k > 0 && m > 0 {
      ChooseLength(lo + 1, m - 1, k - 1);
      ChooseLength(lo + 1, m - 1, k);
    }
  }

  /** Every selection is a k-combination of lo, ..., lo + m - 1. */
  lemma {:induction false} ChooseSound(lo: nat, m: nat, k: nat)
    ensures forall c :: c in Choose(lo, m, k) ==> IsCombination(c, lo, lo + m, k)
    ensures forall i :: 0 <= i < |Choose(lo, m, k)| ==> IsCombination(Choose(lo, m, k)[i], lo, lo + m, k)
    decreases m
  {
    if k > 0 && m > 0 {
      ChooseSound(lo + 1, m - 1, k - 1);
      ChooseSound(lo + 1, m - 1, k);
      var firsts := Choose(lo + 1, m - 1, k - 1);
      forall c | c in Choose(lo, m, k)
        ensures IsCombination(c, lo, lo + m, k)
      {
        if c in Prepend(lo, firsts) {
          var i :| 0 <= i < |firsts| && c == Prepend(lo, firsts)[i];
          assert c == [lo] + firsts[i];
          assert IsCombination(firsts[i], lo + 1, lo + m, k - 1);
        }
      }
    }
  }

  /** Every k-combination of lo, ..., lo + m - 1 is listed. */
  lemma {:induction false} ChooseComplete(lo: nat, m: nat, k: nat, c: seq<nat>)
    requires IsCombination(c, lo, lo + m, k)
    ensures c in Choose(lo, m, k)
    decreases m, 1
  {
    if k == 0 {
      assert c == [];
    } else if c[0] == lo {
      CompleteTaking(lo, m, k, c);
    } else {
      CompleteSkipping(lo, m, k, c);
    }
  }

  /** A combination that takes lo is among the selections listed first. */
  lemma {:induction false} CompleteTaking(lo: nat, m: nat, k: nat, c: seq<nat>)
    requires k > 0 && IsCombination(c, lo, lo + m, k) && c[0] == lo
    ensures c in Choose(lo, m, k)
    decreases m, 0
  {
    TailCombination(lo, m, k, c);
    ChooseComplete(lo + 1, m - 1, k - 1, c[1..]);
    ChooseTake(lo, m, k, c);
  }

  /** A combination that does not take lo is among the selections listed last. */
  lemma {:induction false} CompleteSkipping(lo: nat, m: nat, k: nat, c: seq<nat>)
    requires k > 0 && IsCombination(c, lo, lo + m, k) && c[0] != lo
    ensures c in Choose(lo, m, k)
    decreases m, 0
  {
    LaterCombination(lo, m, k, c);
    ChooseComplete(lo + 1, m - 1, k, c);
    ChooseSkip(lo, m, k, c);
  }

  /** A combination that takes lo continues with a combination of the later positions. */
  lemma TailCombination(lo: nat, m: nat, k: nat, c: seq<nat>)
    requires k > 0 && IsCombination(c, lo, lo + m, k) && c[0] == lo
    ensures m > 0 && IsCombination(c[1..], lo + 1, lo + 1 + (m - 1), k - 1)
  {
    var tail := c[1..];
    forall i | 0 <= i < |tail|
      ensures lo + 1 <= tail[i] < lo + m
    {
      assert c[0] < c[i + 1];
    }
  }

  /** A combination that does not take lo is a combination of the later positions. */
  lemma LaterCombination(lo: nat, m: nat, k: nat, c: seq<nat>)
    requires k > 0 && IsCombination(c, lo, lo + m, k) && c[0] != lo
    ensures m > 0 && IsCombination(c, lo + 1, lo + 1 + (m - 1), k)
  {
    forall i | 0 <= i < |c|
      ensures lo + 1 <= c[i]
    {
      if i > 0 { assert c[0] < c[i]; }
    }
  }

  /** A selection that takes lo and continues with a listed selection of the later
      positions is listed. */
  lemma ChooseTake(lo: nat, m: nat, k: nat, c: seq<nat>)
    requires m > 0 && k > 0 && |c| > 0 && c[0] == lo
    requires c[1..] in Choose(lo + 1, m - 1, k - 1)
    ensures c in Choose(lo, m, k)
  {
    var firsts := Choose(lo + 1, m - 1, k - 1);
    var i :| 0 <= i < |firsts| && firsts[i] == c[1..];
    assert [lo] + c[1..] == c;
    assert Prepend(lo, firsts)[i] == c;
    assert Choose(lo, m, k) == Prepend(lo, firsts) + Choose(lo + 1, m - 1, k);
  }

  /** A selection of the later positions without lo is listed. */
  lemma ChooseSkip(lo: nat, m: nat, k: nat, c: seq<nat>)
    requires m > 0 && k > 0
    requires c in Choose(lo + 1, m - 1, k)
    ensures c in Choose(lo, m, k)
  {
    assert Choose(lo, m, k) == Prepend(lo, Choose(lo + 1, m - 1, k - 1)) + Choose(lo + 1, m - 1, k);
  }

  /** The selections come in strictly increasing lexicographic order, so none repeats. */
  lemma {:induction false} ChooseOrdered(lo: nat, m: nat, k: nat)
    ensures LexSorted(Choose(lo, m, k))
    decreases m
  {
    if k > 0 && m > 0 {
      var firsts := Choose(lo + 1, m - 1, k - 1);
      var rests := Choose(lo + 1, m - 1, k);
      ChooseOrdered(lo + 1, m - 1, k - 1);
      ChooseOrdered(lo + 1, m - 1, k);
      ChooseSound(lo + 1, m - 1, k);
      var cs := Choose(lo, m, k);
      var n := |firsts|;
      assert cs == Prepend(lo, firsts) + rests;
      assert LexSorted(firsts) && LexSorted(rests);
      forall i, j | 0 <= i < j < |cs|
        ensures LexLess(cs[i], cs[j])
      {
        if j < n {
          assert cs[i] == [lo] + firsts[i] && cs[j] == [lo] + firsts[j];
          PrependLess(lo, firsts[i], firsts[j]);
        } else if i < n {
          assert cs[i] == [lo] + firsts[i];
          assert cs[j] == rests[j - n];
          assert IsCombination(rests[j - n], lo + 1, lo + m, k);
          FirstsBeforeRests(lo, firsts[i], rests[j - n]);
        } else {
          assert cs[i] == rests[i - n] && cs[j] == rests[j - n];
        }
      }
    }
  }

  /** Putting the same position in front keeps the lexicographic order. */
  lemma PrependLess(x: nat, a: seq<nat>, b: seq<nat>)
    requires LexLess(a, b)
    ensures LexLess([x] + a, [x] + b)
  {
    var p :| 0 <= p < |a| && p < |b| && a[..p] == b[..p] && a[p] < b[p];
    assert ([x] + a)[..p + 1] == [x] + a[..p];
    assert ([x] + b)[..p + 1] == [x] + b[..p];
    assert ([x] + a)[p + 1] == a[p] && ([x] + b)[p + 1] == b[p];
  }

  /** A selection that takes lo comes before every selection that starts later. */
  lemma FirstsBeforeRests(lo: nat, a: seq<nat>, b: seq<nat>)
    requires |b| > 0 && lo < b[0]
    ensures LexLess([lo] + a, b)
  {
    assert ([lo] + a)[..0] == b[..0];
    assert ([lo] + a)[0] == lo;
  }

  /** Every selection of three of the positions 0, ..., n - 1 is an increasing triple below n. */
  predicate TriplesBelow(cs: seq<seq<nat>>, n: nat)
  {
    forall i :: 0 <= i < |cs| ==> |cs[i]| == 3 && cs[i][0] < cs[i][1] < cs[i][2] < n
  }

  /** The 3-combinations of 0, ..., n - 1 in the plain form their users need. */
  lemma ChooseTriples(n: nat)
    ensures TriplesBelow(Choose(0, n, 3), n)
  {
    var cs := Choose(0, n, 3);
    ChooseSound(0, n, 3);
    forall i | 0 <= i < |cs|
      ensures |cs[i]| == 3 && cs[i][0] < cs[i][1] < cs[i][2] < n
    {
      assert IsCombination(cs[i], 0, n, 3);
    }
  }

  /** Any prefix of a list of such triples is one too. */
  lemma TriplesPrefix(cs: seq<seq<nat>>, n: nat, j: nat)
    requires TriplesBelow(cs, n) && j <= |cs|
    ensures TriplesBelow(cs[..j], n)
  {
  }

  /** How many 3-combinations pools of up to eight positions have. */
  lemma TrioCounts(m: nat)
    requires m <= 8
    ensures Binom(m, 3) == if m < 3 then 0 else if m == 3 then 1 else if m == 4 then 4
                           else if m == 5 then 10 else if m == 6 then 20 else if m == 7 then 35 else 56
  {
    if m == 0 {} else if m == 1 {} else if m == 2 {} else if m == 3 {} else if m == 4 {}
    else if m == 5 {} else if m == 6 {} else if m == 7 {} else {}
  }
}
