/** `APIHandler`: the same three handlers, with the players fetched concurrently in a
    throwing task group. Tasks finish in an order the scheduler picks, so the results are
    collected in completion order: `completed` is that order, a permutation of the
    per-player outcomes in the order of the names. The game-data client it holds is an
    external package, not part of this model; its calls are taken to behave as the fetch
    functions of `RiotFetch`. */
module ApiClient {
  import opened Results
  import opened Riot
  import opened RiotFetch
  import opened ChampionsResponse
  import opened ChampionCompareResponse
  import opened ChampionClassCompareResponse
  import opened Aggregation

  /** `for try await result in taskGroup { results.append(result) }`: the results in the
      order the tasks complete; the first task to fail ends the loop with its error. */
  method CollectTaskGroup<T>(completed: seq<Result<T>>) returns (r: Result<seq<T>>)
    ensures r == CollectInOrder(completed)
  {
    CollectInOrderSpec(completed);
    var results: seq<T> := [];
    var i := 0;
    while i < |completed|
      invariant 0 <= i <= |completed|
      invariant |results| == i
      invariant forall j :: 0 <= j < i ==> completed[j] == Ok(results[j])
    {
      match completed[i]
      case Err(e) =>
        FirstFailureAt(completed, i);
        r := Err(e);
        return;
      case Ok(result) =>
        results := results + [result];
      i := i + 1;
    }
    assert results == Values(completed);
    r := Ok(results);
  }

  /** `championCompareHandler`: after the target check, one task per name is launched;
      `launched` lists them. The comparison succeeds exactly when the sequential one does,
      with the same champion info and the same per-player results, in completion order. */
  method ChampionCompareHandler(up: Upstream, region: ServerRegion, championId: int, names: seq<string>,
                                completed: seq<Result<SummonerMastery>>)
    returns (r: Result<ChampionCompareResponse>, launched: seq<string>)
    requires up.riotToken.Some?
    requires multiset(completed) == multiset(ChampionMasteryOutcomes(up, region, names, championId))
    ensures FetchChampions(up).Err? ==> r == Err(FetchChampions(up).error) && launched == []
    ensures FetchChampions(up).Ok? && championId !in FetchChampions(up).value.data ==>
      r == Err(InternalServerError) && launched == []
    ensures FetchChampions(up).Ok? && championId in FetchChampions(up).value.data ==> launched == names
    ensures r.Ok? <==> ChampionCompare(up, region, championId, names).Ok?
    ensures r.Ok? ==>
      var sequential := ChampionCompare(up, region, championId, names).value;
      && r.value.championInfo == sequential.championInfo
      && |r.value.results| == |sequential.results|
      && multiset(r.value.results) == multiset(sequential.results)
    ensures r.Err? && FetchChampions(up).Ok? && championId in FetchChampions(up).value.data ==>
      r.error == Trap ||
      exists j :: 0 <= j < |names| && ChampionMasteryOutcomes(up, region, names, championId)[j] == Err(r.error)
  {
    launched := [];
    var champions := FetchChampions(up);
    ChampionCompareSteps(up, region, championId, names);
    if champions.Err? {
      r := Err(champions.error);
      return;
    }
    if championId !in champions.value.data {
      r := Err(InternalServerError);
      return;
    }
    var targetChampion := champions.value.data[championId];
    launched := names;
    ghost var outcomes := ChampionMasteryOutcomes(up, region, names, championId);
    CollectAnyOrder(outcomes, completed);
    var results := CollectTaskGroup(completed);
    if results.Err? {
      r := Err(results.error);
      return;
    }
    var championInfo := ChampionInfoOf(targetChampion);
    if championInfo.Err? {
      r := Err(championInfo.error);
      return;
    }
    r := Ok(ChampionCompareResponse(championInfo.value, results.value));
  }

  /** `championClassCompareHandler`: after the subset check, one task per name. The
      comparison succeeds exactly when the sequential one does, with the same class and
      the same per-player results in completion order, and the winner chosen among them. */
  method ChampionClassCompareHandler(up: Upstream, region: ServerRegion, championClass: string, names: seq<string>,
                                     completed: seq<Result<SummonerMasteries>>)
    returns (r: Result<ChampionClassCompareResponse>, launched: seq<string>)
    requires up.riotToken.Some?
    requires FetchChampions(up).Ok? ==>
      multiset(completed) == multiset(ClassMasteriesOutcomes(up, region, ClassSubset(FetchChampions(up).value.data, championClass), names))
    ensures FetchChampions(up).Err? ==> r == Err(FetchChampions(up).error) && launched == []
    ensures FetchChampions(up).Ok? && ClassSubset(FetchChampions(up).value.data, championClass) == {} ==>
      r == Err(InternalServerError) && launched == []
    ensures FetchChampions(up).Ok? && ClassSubset(FetchChampions(up).value.data, championClass) != {} ==> launched == names
    ensures r.Ok? <==> ChampionClassCompare(up, region, championClass, names).Ok?
    ensures r.Ok? ==>
      var sequential := ChampionClassCompare(up, region, championClass, names).value;
      && r.value == ClassCompareResponseOf(championClass, r.value.results)
      && |r.value.results| == |sequential.results|
      && multiset(r.value.results) == multiset(sequential.results)
    ensures r.Err? && FetchChampions(up).Ok? && ClassSubset(FetchChampions(up).value.data, championClass) != {} ==>
      exists j :: 0 <= j < |names| &&
        ClassMasteriesOutcomes(up, region, ClassSubset(FetchChampions(up).value.data, championClass), names)[j] == Err(r.error)
  {
    launched := [];
    var champions := FetchChampions(up);
    ChampionClassCompareSteps(up, region, championClass, names);
    if champions.Err? {
      r := Err(champions.error);
      return;
    }
    var filteredChampions := ClassSubset(champions.value.data, championClass);
    if |filteredChampions| == 0 {
      r := Err(InternalServerError);
      return;
    }
    launched := names;
    ghost var outcomes := ClassMasteriesOutcomes(up, region, filteredChampions, names);
    CollectAnyOrder(outcomes, completed);
    var results := CollectTaskGroup(completed);
    if results.Err? {
      r := Err(results.error);
      return;
    }
    r := Ok(ClassCompareResponseOf(championClass, results.value));
  }

  /** Completion order decides nothing but the order of the results, and the winner only
      through ties: when one player has strictly the most points, the concurrent class
      comparison names the same winner as the sequential one. */
  lemma ConcurrentWinnerMatchesSequential(concurrent: seq<SummonerMasteries>, sequential: seq<SummonerMasteries>, i: int)
    requires multiset(concurrent) == multiset(sequential)
    requires 0 <= i < |sequential|
    requires forall j :: 0 <= j < |sequential| && j != i ==> Total(sequential[j]) < Total(sequential[i])
    ensures Winner(concurrent) == Winner(sequential) == sequential[i].summoner.name
  {
    assert IsFirstMaximal(sequential, i);
    WinnerIndependentOfOrder(sequential, concurrent, i);
  }

  /** A tie can be broken either way: the same two results, completed in the two orders,
      name different winners. */
  lemma TieDependsOnCompletionOrder(a: SummonerMasteries, b: SummonerMasteries)
    requires Total(a) == Total(b) && a.summoner.name != b.summoner.name
    ensures multiset([a, b]) == multiset([b, a])
    ensures Winner([a, b]) == a.summoner.name && Winner([b, a]) == b.summoner.name
  {
    assert [a, b][1..] == [b] && [b][1..] == [];
    assert [b, a][1..] == [a] && [a][1..] == [];
    assert SortByTotalDescending([b]) == Insert(b, []) == [b];
    assert SortByTotalDescending([a]) == Insert(a, []) == [a];
    assert SortByTotalDescending([a, b]) == Insert(a, [b]) == [a, b];
    assert SortByTotalDescending([b, a]) == Insert(b, [a]) == [b, a];
  }
}
