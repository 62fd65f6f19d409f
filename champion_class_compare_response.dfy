/** The response shapes of the champion-class comparison: per-player summary statistics
    and the choice of a winner. */
module ChampionClassCompareResponse {
  import opened Riot
  import opened ChampionCompareResponse

  /** `SummonerMasteriesSummary`. */
  datatype SummonerMasteriesSummary = SummonerMasteriesSummary(
    totalPoints: int,
    numberOfChampionsAtLevel7: nat,
    numberOfChampionsAtLevel6: nat,
    numberOfChampionsAtLevel5: nat)

  /** `SummonerMasteries`. */
  datatype SummonerMasteries = SummonerMasteries(
    summoner: SummonerInfo,
    summary: SummonerMasteriesSummary,
    masteries: seq<MasteryInfo>)

  /** `ChampionClassCompareResponse`. */
  datatype ChampionClassCompareResponse = ChampionClassCompareResponse(
    championClass: string,
    winner: string,
    results: seq<SummonerMasteries>)

  // ---------------------------------------------------------------------------
  // Summary statistics

  /** `reduce(0, +)`. */
  function Sum(xs: seq<int>): int {
    if xs == [] then 0 else xs[0] + Sum(xs[1..])
  }

  /** `filter { $0 == k }.count`. */
  function Count(xs: seq<int>, k: int): nat {
    if xs == [] then 0 else (if xs[0] == k then 1 else 0) + Count(xs[1..], k)
  }

  /** `masteries.map { $0.championPoints }`. */
  function Points(ms: seq<ChampionMasteryDTO>): seq<int> {
    seq(|ms|, i requires 0 <= i < |ms| => ms[i].championPoints)
  }

  /** `masteries.map { $0.championLevel }`. */
  function Levels(ms: seq<ChampionMasteryDTO>): seq<int> {
    seq(|ms|, i requires 0 <= i < |ms| => ms[i].championLevel)
  }

  /** `SummonerMasteriesSummary.init(masteries:)`. */
  function SummaryOf(ms: seq<ChampionMasteryDTO>): SummonerMasteriesSummary {
    SummonerMasteriesSummary(
      Sum(Points(ms)), Count(Levels(ms), 7), Count(Levels(ms), 6), Count(Levels(ms), 5))
  }

  /** The total over a concatenation is the sum of the totals. */
  lemma {:induction false} SumAppend(xs: seq<int>, ys: seq<int>)
    ensures Sum(xs + ys) == Sum(xs) + Sum(ys)
  {
    if xs == [] {
      assert xs + ys == ys;
    } else {
      assert (xs + ys)[1..] == xs[1..] + ys;
      SumAppend(xs[1..], ys);
    }
  }

  /** A champion sits at one level only: the three counts together are at most the number
      of masteries, and equal to it when every level is 5, 6 or 7. */
  lemma {:induction false} LevelCountsBounded(levels: seq<int>)
    ensures Count(levels, 7) + Count(levels, 6) + Count(levels, 5) <= |levels|
    ensures (forall i :: 0 <= i < |levels| ==> 5 <= levels[i] <= 7) ==>
      Count(levels, 7) + Count(levels, 6) + Count(levels, 5) == |levels|
  {
    if levels != [] {
      LevelCountsBounded(levels[1..]);
    }
  }

  /** The summary of no masteries is all zeros; the counts never exceed the list. */
  lemma SummaryBounds(ms: seq<ChampionMasteryDTO>)
    ensures ms == [] ==> SummaryOf(ms) == SummonerMasteriesSummary(0, 0, 0, 0)
    ensures var s := SummaryOf(ms);
      s.numberOfChampionsAtLevel7 + s.numberOfChampionsAtLevel6 + s.numberOfChampionsAtLevel5 <= |ms|
  {
    LevelCountsBounded(Levels(ms));
  }

  /** `SummonerMasteries.init(summoner:masteries:)`. */
  function SummonerMasteriesOf(s: SummonerDTO, ms: seq<ChampionMasteryDTO>): SummonerMasteries {
    SummonerMasteries(SummonerInfoOf(s), SummaryOf(ms), seq(|ms|, i requires 0 <= i < |ms| => MasteryInfoOf(ms[i])))
  }

  /** The listed masteries follow the input one for one, in order, and the summary agrees
      with what is listed: its total is the sum of the listed points and its counts are the
      counts of the listed levels. */
  lemma SummaryMatchesListedMasteries(s: SummonerDTO, ms: seq<ChampionMasteryDTO>)
    ensures var r := SummonerMasteriesOf(s, ms);
      && r.summoner == SummonerInfoOf(s)
      && |r.masteries| == |ms|
      && (forall i :: 0 <= i < |ms| ==> r.masteries[i] == MasteryInfoOf(ms[i]))
      && r.summary.totalPoints == Sum(seq(|r.masteries|, i requires 0 <= i < |r.masteries| => r.masteries[i].championPoints))
      && var levels := seq(|r.masteries|, i requires 0 <= i < |r.masteries| => r.masteries[i].championLevel);
      && r.summary.numberOfChampionsAtLevel7 == Count(levels, 7)
      && r.summary.numberOfChampionsAtLevel6 == Count(levels, 6)
      && r.summary.numberOfChampionsAtLevel5 == Count(levels, 5)
  {
    var r := SummonerMasteriesOf(s, ms);
    assert seq(|r.masteries|, i requires 0 <= i < |r.masteries| => r.masteries[i].championPoints) == Points(ms);
    assert seq(|r.masteries|, i requires 0 <= i < |r.masteries| => r.masteries[i].championLevel) == Levels(ms);
  }

  // ---------------------------------------------------------------------------
  // The winner

  function Total(r: SummonerMasteries): int {
    r.summary.totalPoints
  }

  /** Inserts `x`, which came before every element of `sorted`, in front of the first
      element whose total it reaches: so equal totals keep their input order. */
  function Insert(x: SummonerMasteries, sorted: seq<SummonerMasteries>): seq<SummonerMasteries> {
    if sorted == [] || Total(x) >= Total(sorted[0]) then [x] + sorted
    else [sorted[0]] + Insert(x, sorted[1..])
  }

  /** `sorted(by: { $0.summary.totalPoints > $1.summary.totalPoints })`, a stable sort. */
  function SortByTotalDescending(rs: seq<SummonerMasteries>): seq<SummonerMasteries> {
    if rs == [] then [] else Insert(rs[0], SortByTotalDescending(rs[1..]))
  }

  predicate Descending(rs: seq<SummonerMasteries>) {
    forall i, j :: 0 <= i < j < |rs| ==> Total(rs[i]) >= Total(rs[j])
  }

  /** Putting an entry with at least the head's total in front keeps the order. */
  lemma PrependKeepsOrder(x: SummonerMasteries, sorted: seq<SummonerMasteries>)
    requires Descending(sorted)
    requires sorted == [] || Total(x) >= Total(sorted[0])
    ensures Descending([x] + sorted)
  {
    var r := [x] + sorted;
    forall i, j | 0 <= i < j < |r| ensures Total(r[i]) >= Total(r[j]) {
      assert r[j] == sorted[j - 1];
      if i > 0 {
        assert r[i] == sorted[i - 1];
      }
    }
  }

  lemma {:induction false} InsertKeepsOrder(x: SummonerMasteries, sorted: seq<SummonerMasteries>)
    requires Descending(sorted)
    ensures multiset(Insert(x, sorted)) == multiset(sorted) + multiset{x}
    ensures Descending(Insert(x, sorted))
    ensures |Insert(x, sorted)| > 0
    ensures Insert(x, sorted)[0] == (if sorted == [] || Total(x) >= Total(sorted[0]) then x else sorted[0])
  {
    if sorted == [] || Total(x) >= Total(sorted[0]) {
      PrependKeepsOrder(x, sorted);
    } else {
      var head, rest := sorted[0], sorted[1..];
      assert sorted == [head] + rest;
      InsertKeepsOrder(x, rest);
      var t := Insert(x, rest);
      assert Insert(x, sorted) == [head] + t;
      PrependKeepsOrder(head, t);
    }
  }

  /** The sort is a permutation of its input in descending order of total points. */
  lemma {:induction false} SortIsPermutationInOrder(rs: seq<SummonerMasteries>)
    ensures multiset(SortByTotalDescending(rs)) == multiset(rs)
    ensures Descending(SortByTotalDescending(rs))
  {
    if rs != [] {
      var tail := SortByTotalDescending(rs[1..]);
      SortIsPermutationInOrder(rs[1..]);
      InsertKeepsOrder(rs[0], tail);
      assert SortByTotalDescending(rs) == Insert(rs[0], tail);
      assert rs == [rs[0]] + rs[1..];
      assert multiset(rs) == multiset{rs[0]} + multiset(rs[1..]);
    }
  }

  /** `i` is the first entry with the greatest total. */
  ghost predicate IsFirstMaximal(rs: seq<SummonerMasteries>, i: int) {
    && 0 <= i < |rs|
    && (forall j :: 0 <= j < |rs| ==> Total(rs[j]) <= Total(rs[i]))
    && (forall j :: 0 <= j < i ==> Total(rs[j]) < Total(rs[i]))
  }

  /** The head of the stable descending sort is the first entry with the greatest total. */
  lemma {:induction false} SortHeadIsFirstMaximal(rs: seq<SummonerMasteries>)
    requires rs != []
    ensures SortByTotalDescending(rs) != []
    ensures exists i :: IsFirstMaximal(rs, i) && rs[i] == SortByTotalDescending(rs)[0]
  {
    var rest := SortByTotalDescending(rs[1..]);
    var sorted := SortByTotalDescending(rs);
    assert sorted == Insert(rs[0], rest);
    if rs[1..] == [] {
      assert IsFirstMaximal(rs, 0);
    } else {
      SortHeadIsFirstMaximal(rs[1..]);
      var i' :| IsFirstMaximal(rs[1..], i') && rs[1..][i'] == rest[0];
      if Total(rs[0]) >= Total(rest[0]) {
        assert sorted[0] == rs[0];
        forall j | 0 <= j < |rs| ensures Total(rs[j]) <= Total(rs[0]) {
          if j > 0 {
            assert rs[j] == rs[1..][j - 1];
          }
        }
        assert IsFirstMaximal(rs, 0);
      } else {
        assert sorted[0] == rest[0];
        forall j | 0 <= j < |rs| ensures Total(rs[j]) <= Total(rs[i' + 1])
          && (j < i' + 1 ==> Total(rs[j]) < Total(rs[i' + 1]))
        {
          if j > 0 {
            assert rs[j] == rs[1..][j - 1];
          }
        }
        assert IsFirstMaximal(rs, i' + 1);
      }
    }
  }

  /** The name `ChampionClassCompareResponse.init` picks: the head of the sorted results,
      or "N/A" when there are none. */
  function Winner(results: seq<SummonerMasteries>): string {
    var sorted := SortByTotalDescending(results);
    if sorted == [] then "N/A" else sorted[0].summoner.name
  }

  /** `ChampionClassCompareResponse.init(championClass:results:)`. */
  function ClassCompareResponseOf(championClass: string, results: seq<SummonerMasteries>): ChampionClassCompareResponse {
    ChampionClassCompareResponse(championClass, Winner(results), results)
  }

  /** The winner is the name of the first entry with the greatest total; with no entries it
      is "N/A". The class and the results are kept as given. */
  lemma WinnerIsFirstMaximal(championClass: string, results: seq<SummonerMasteries>)
    ensures var r := ClassCompareResponseOf(championClass, results);
      && r.championClass == championClass && r.results == results
      && (results == [] ==> r.winner == "N/A")
      && (results != [] ==> exists i :: IsFirstMaximal(results, i) && r.winner == results[i].summoner.name)
  {
    if results != [] {
      SortHeadIsFirstMaximal(results);
    }
  }

  /** "N/A" means "no results" as long as nobody is called "N/A". */
  lemma WinnerNotApplicableIffEmpty(results: seq<SummonerMasteries>)
    requires forall r :: r in results ==> r.summoner.name != "N/A"
    ensures Winner(results) == "N/A" <==> results == []
  {
    if results != [] {
      SortHeadIsFirstMaximal(results);
    }
  }

  /** With a single entry holding the greatest total, the winner does not depend on the
      order of the results. */
  lemma WinnerIndependentOfOrder(rs: seq<SummonerMasteries>, ps: seq<SummonerMasteries>, i: int)
    requires multiset(rs) == multiset(ps)
    requires IsFirstMaximal(rs, i)
    requires forall j :: 0 <= j < |rs| && j != i ==> Total(rs[j]) < Total(rs[i])
    ensures Winner(ps) == Winner(rs) == rs[i].summoner.name
  {
    SortHeadIsFirstMaximal(rs);
    assert rs[i] in multiset(ps);
    assert ps != [];
    SortHeadIsFirstMaximal(ps);
    var k :| IsFirstMaximal(ps, k) && ps[k] == SortByTotalDescending(ps)[0];
    var l :| 0 <= l < |ps| && ps[l] == rs[i];
    assert ps[k] in multiset(rs);
    var m :| 0 <= m < |rs| && rs[m] == ps[k];
    assert Total(ps[k]) >= Total(ps[l]);
  }

  /** Totals 100, 250 and 250: the winner is the first of the two tied entries. */
  lemma TieGoesToFirst(a: SummonerMasteries, b: SummonerMasteries, c: SummonerMasteries)
    requires Total(a) == 100 && Total(b) == 250 && Total(c) == 250
    ensures Winner([a, b, c]) == b.summoner.name
  {
    assert [a, b, c][1..] == [b, c] && [b, c][1..] == [c] && [c][1..] == [];
    assert SortByTotalDescending([c]) == [c];
    assert SortByTotalDescending([b, c]) == [b, c];
    assert SortByTotalDescending([a, b, c]) == Insert(a, [b, c]);
    assert Insert(a, [b, c]) == [b] + Insert(a, [c]);
  }
}
