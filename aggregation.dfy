/** The request-level logic shared by the route handlers and by `APIHandler`: the upstream
    calls as inputs, the catalog join, the class filter, the per-player work and the
    all-or-nothing collection of per-player results, and the three responses it yields. */
module Aggregation {
  import opened Results
  import opened Riot
  import opened RiotFetch
  import opened ChampionsResponse
  import opened ChampionMastery
  import opened ChampionCompareResponse
  import opened ChampionClassCompareResponse

  // ---------------------------------------------------------------------------
  // The join

  /** `m` finds its champion in the catalog and the joined record can be built. */
  predicate Joins(data: map<int, Champion>, m: ChampionMasteryDTO) {
    m.championId in data && MakeChampionMastery(data[m.championId], m).Ok?
  }

  /** `try masteries.map { ... }`: each mastery looks its champion up by `championId`; a
      miss throws `Abort(.internalServerError)`, and the first failure ends the map. */
  function Join(data: map<int, Champion>, ms: seq<ChampionMasteryDTO>): Result<seq<ChampionMastery>> {
    if ms == [] then Ok([])
    else if ms[0].championId !in data then Err(InternalServerError)
    else
      var head :- MakeChampionMastery(data[ms[0].championId], ms[0]);
      var tail :- Join(data, ms[1..]);
      Ok([head] + tail)
  }

  /** The join gives one record per mastery, in order, each built from the catalog entry
      under the mastery's `championId`; it fails exactly when some mastery does not join,
      and then with the error of the first such mastery: `.internalServerError` for a
      missing id, a trap for an unformattable name. */
  lemma {:induction false} JoinSpec(data: map<int, Champion>, ms: seq<ChampionMasteryDTO>)
    ensures Join(data, ms).Ok? <==> forall i :: 0 <= i < |ms| ==> Joins(data, ms[i])
    ensures Join(data, ms).Ok? ==>
      var r := Join(data, ms).value;
      |r| == |ms| &&
      forall i :: 0 <= i < |ms| ==> r[i] == MakeChampionMastery(data[ms[i].championId], ms[i]).value
    ensures forall k :: 0 <= k < |ms| && !Joins(data, ms[k]) && (forall j :: 0 <= j < k ==> Joins(data, ms[j])) ==>
      Join(data, ms) == Err(if ms[k].championId in data then Trap else InternalServerError)
  {
    if ms != [] {
      JoinSpec(data, ms[1..]);
      assert forall i :: 1 <= i < |ms| ==> ms[i] == ms[1..][i - 1];
      if Joins(data, ms[0]) {
        forall k | 0 < k < |ms| && !Joins(data, ms[k]) && (forall j :: 0 <= j < k ==> Joins(data, ms[j]))
          ensures Join(data, ms) == Err(if ms[k].championId in data then Trap else InternalServerError)
        {
          assert forall j :: 0 <= j < k - 1 ==> Joins(data, ms[1..][j]);
        }
      } else if ms[0].championId in data {
        JoinedRecord(data[ms[0].championId], ms[0]);
      }
    }
  }

  // ---------------------------------------------------------------------------
  // The class filter

  /** `Array(champions.data.values).filter { $0.tags.contains(championClass) }`. Its order
      is never observed (it is only tested for emptiness and searched), so it is a set. */
  function ClassSubset(data: map<int, Champion>, championClass: string): set<Champion> {
    set k | k in data && championClass in data[k].tags :: data[k]
  }

  /** `filteredChampions.contains { $0.key == mastery.championId }`. */
  predicate InSubset(subset: set<Champion>, m: ChampionMasteryDTO) {
    exists c :: c in subset && c.key == m.championId
  }

  /** `masteries.filter { ... }`: the masteries whose champion is in the subset, in order. */
  function KeepSubset(ms: seq<ChampionMasteryDTO>, subset: set<Champion>): seq<ChampionMasteryDTO> {
    if ms == [] then []
    else (if InSubset(subset, ms[0]) then [ms[0]] else []) + KeepSubset(ms[1..], subset)
  }

  /** Filtering a concatenation filters each part: the kept masteries keep their order. */
  lemma {:induction false} KeepSubsetAppend(a: seq<ChampionMasteryDTO>, b: seq<ChampionMasteryDTO>, subset: set<Champion>)
    ensures KeepSubset(a + b, subset) == KeepSubset(a, subset) + KeepSubset(b, subset)
  {
    if a == [] {
      assert a + b == b;
    } else {
      assert (a + b)[1..] == a[1..] + b;
      KeepSubsetAppend(a[1..], b, subset);
    }
  }

  /** Every mastery whose champion is in the subset is kept as often as it occurs, and no
      other mastery is kept. */
  lemma {:induction false} KeepSubsetCounts(ms: seq<ChampionMasteryDTO>, subset: set<Champion>, m: ChampionMasteryDTO)
    ensures multiset(KeepSubset(ms, subset))[m] == if InSubset(subset, m) then multiset(ms)[m] else 0
  {
    if ms != [] {
      KeepSubsetCounts(ms[1..], subset, m);
      assert ms == [ms[0]] + ms[1..];
    }
  }

  /** Against a catalog that stores each champion under its own key, membership in the
      class subset is a lookup: the mastery's champion id is in the catalog and that
      champion carries the class tag. */
  lemma InClassSubsetById(data: map<int, Champion>, championClass: string, m: ChampionMasteryDTO)
    requires WellKeyed(data)
    ensures InSubset(ClassSubset(data, championClass), m) <==>
      m.championId in data && championClass in data[m.championId].tags
  {
    if m.championId in data && championClass in data[m.championId].tags {
      assert data[m.championId] in ClassSubset(data, championClass);
    }
    if InSubset(ClassSubset(data, championClass), m) {
      var c :| c in ClassSubset(data, championClass) && c.key == m.championId;
      var k :| k in data && championClass in data[k].tags && data[k] == c;
    }
  }

  function MasteryWithId(id: int): ChampionMasteryDTO {
    ChampionMasteryDTO("", 0, false, id, 0, 0, "", 0, 0, 0)
  }

  function ChampionWithKey(key: int): Champion {
    Champion("", "", key, "", "", "", [], "")
  }

  /** Allowed ids {1, 2, 3} against masteries with ids 1, 4 and 5 keep the first only. */
  lemma KeepSubsetExample()
    ensures var subset := {ChampionWithKey(1), ChampionWithKey(2), ChampionWithKey(3)};
      KeepSubset([MasteryWithId(1), MasteryWithId(4), MasteryWithId(5)], subset) == [MasteryWithId(1)]
  {
    var subset := {ChampionWithKey(1), ChampionWithKey(2), ChampionWithKey(3)};
    var ms := [MasteryWithId(1), MasteryWithId(4), MasteryWithId(5)];
    assert InSubset(subset, ms[0]) by {
      assert ChampionWithKey(1) in subset;
    }
    assert ms[1..] == [MasteryWithId(4), MasteryWithId(5)];
    assert ms[1..][1..] == [MasteryWithId(5)];
    assert ms[1..][1..][1..] == [];
  }

  // ---------------------------------------------------------------------------
  // Per-player work

  /** `fetchSummonerChampionMastery`: resolve the summoner, then fetch its mastery of one
      champion by the resolved `puuid`. */
  function FetchSummonerChampionMastery(up: Upstream, region: ServerRegion, summonerName: string, championId: int): Result<SummonerMastery> {
    var summoner :- FetchSummoner(up, region, summonerName);
    var mastery :- FetchChampionMastery(up, region, summoner.puuid, championId);
    Ok(SummonerMasteryOf(summoner, mastery))
  }

  /** `fetchSummonerChampionMasteries`: resolve the summoner, fetch all its masteries by the
      resolved `puuid`, and keep those of the class subset. */
  function FetchSummonerChampionMasteries(up: Upstream, region: ServerRegion, subset: set<Champion>, summonerName: string): Result<SummonerMasteries> {
    var summoner :- FetchSummoner(up, region, summonerName);
    var masteries :- FetchChampionMasteries(up, region, summoner.puuid);
    Ok(SummonerMasteriesOf(summoner, KeepSubset(masteries, subset)))
  }

  /** A player's result depends on the name only through the summoner it resolves to: the
      mastery calls use the resolved `puuid`, never the display name. */
  lemma PerPlayerUsesResolvedIdentity(up: Upstream, region: ServerRegion, subset: set<Champion>, a: string, b: string, championId: int)
    requires FetchSummoner(up, region, a) == FetchSummoner(up, region, b)
    ensures FetchSummonerChampionMastery(up, region, a, championId) == FetchSummonerChampionMastery(up, region, b, championId)
    ensures FetchSummonerChampionMasteries(up, region, subset, a) == FetchSummonerChampionMasteries(up, region, subset, b)
  {
  }

  /** A failed summoner lookup fails the player with its error, before any mastery call. */
  lemma PerPlayerFailsOnLookup(up: Upstream, region: ServerRegion, subset: set<Champion>, name: string, championId: int)
    requires FetchSummoner(up, region, name).Err?
    ensures FetchSummonerChampionMastery(up, region, name, championId) == Err(FetchSummoner(up, region, name).error)
    ensures FetchSummonerChampionMasteries(up, region, subset, name) == Err(FetchSummoner(up, region, name).error)
  {
  }

  /** The work done for one name in the single-champion comparison. */
  function MasteryTask(up: Upstream, region: ServerRegion, championId: int): string -> Result<SummonerMastery> {
    name => FetchSummonerChampionMastery(up, region, name, championId)
  }

  /** The work done for one name in the champion-class comparison. */
  function MasteriesTask(up: Upstream, region: ServerRegion, subset: set<Champion>): string -> Result<SummonerMasteries> {
    name => FetchSummonerChampionMasteries(up, region, subset, name)
  }

  /** The outcome of the work for each name, in the order of the names. */
  function Outcomes<T>(names: seq<string>, task: string -> Result<T>): seq<Result<T>> {
    seq(|names|, i requires 0 <= i < |names| => task(names[i]))
  }

  function ChampionMasteryOutcomes(up: Upstream, region: ServerRegion, names: seq<string>, championId: int): seq<Result<SummonerMastery>> {
    Outcomes(names, MasteryTask(up, region, championId))
  }

  function ClassMasteriesOutcomes(up: Upstream, region: ServerRegion, subset: set<Champion>, names: seq<string>): seq<Result<SummonerMasteries>> {
    Outcomes(names, MasteriesTask(up, region, subset))
  }

  // ---------------------------------------------------------------------------
  // All-or-nothing collection

  predicate AllOk<T>(os: seq<Result<T>>) {
    forall i :: 0 <= i < |os| ==> os[i].Ok?
  }

  function Values<T>(os: seq<Result<T>>): seq<T>
    requires AllOk(os)
  {
    seq(|os|, i requires 0 <= i < |os| => os[i].value)
  }

  /** The index of the first failure, or the length when there is none. */
  function FirstFailure<T>(os: seq<Result<T>>): (k: nat)
    ensures k <= |os|
    ensures forall j :: 0 <= j < k ==> os[j].Ok?
    ensures k < |os| ==> os[k].Err?
  {
    if os == [] then 0 else if os[0].Err? then 0 else 1 + FirstFailure(os[1..])
  }

  lemma FirstFailureAt<T>(os: seq<Result<T>>, i: nat)
    requires i < |os| && os[i].Err?
    requires forall j :: 0 <= j < i ==> os[j].Ok?
    ensures FirstFailure(os) == i
  {
  }

  /** Appending the outcomes one by one, in the given order, and rethrowing the first
      failure: the `for` loop with `try` in the route handlers, and `for try await` over a
      task group, where the order is the order of completion. */
  function CollectInOrder<T>(os: seq<Result<T>>): Result<seq<T>> {
    if os == [] then Ok([])
    else match os[0]
      case Err(e) => Err(e)
      case Ok(v) =>
        var rest :- CollectInOrder(os[1..]);
        Ok([v] + rest)
  }

  /** Collection succeeds exactly when every outcome does, and then yields every value in
      order; otherwise it fails with the first failure's error and yields nothing. */
  lemma {:induction false} CollectInOrderSpec<T>(os: seq<Result<T>>)
    ensures CollectInOrder(os).Ok? <==> AllOk(os)
    ensures CollectInOrder(os).Ok? ==> CollectInOrder(os).value == Values(os)
    ensures CollectInOrder(os).Err? ==> CollectInOrder(os).error == os[FirstFailure(os)].error
  {
    if os != [] {
      CollectInOrderSpec(os[1..]);
      assert forall i :: 1 <= i < |os| ==> os[i] == os[1..][i - 1];
      if os[0].Ok? && AllOk(os) {
        assert Values(os) == [os[0].value] + Values(os[1..]);
      }
    }
  }

  /** Removing one occurrence of an outcome removes one occurrence of its value. */
  lemma ValuesWithout<T>(b: seq<Result<T>>, j: nat)
    requires j < |b| && AllOk(b)
    ensures AllOk(b[..j] + b[j + 1..])
    ensures multiset(Values(b)) == multiset(Values(b[..j] + b[j + 1..])) + multiset{b[j].value}
  {
    var rest := b[..j] + b[j + 1..];
    assert Values(b) == Values(b[..j]) + [b[j].value] + Values(b[j + 1..]);
    assert Values(rest) == Values(b[..j]) + Values(b[j + 1..]);
  }

  /** A permutation of successful outcomes holds only successful outcomes. */
  lemma AllOkPermutation<T>(a: seq<Result<T>>, b: seq<Result<T>>)
    requires multiset(a) == multiset(b) && AllOk(a)
    ensures AllOk(b) && |b| == |a|
  {
    assert |a| == |multiset(a)| == |multiset(b)| == |b|;
    forall i | 0 <= i < |b| ensures b[i].Ok? {
      assert b[i] in multiset(a);
    }
  }

  lemma MultisetWithout<T>(b: seq<T>, j: nat)
    requires j < |b|
    ensures multiset(b[..j] + b[j + 1..]) == multiset(b) - multiset{b[j]}
  {
    assert b == b[..j] + [b[j]] + b[j + 1..];
  }

  lemma ValuesCons<T>(a: seq<Result<T>>)
    requires a != [] && AllOk(a)
    ensures AllOk(a[1..])
    ensures multiset(Values(a)) == multiset{a[0].value} + multiset(Values(a[1..]))
  {
    assert Values(a) == [a[0].value] + Values(a[1..]);
  }

  lemma MultisetCons<T>(a: seq<T>)
    requires a != []
    ensures multiset(a) == multiset{a[0]} + multiset(a[1..])
  {
    assert a == [a[0]] + a[1..];
  }

  /** Outcomes that are a permutation of each other have values that are too. */
  lemma {:induction false} ValuesPermutation<T>(a: seq<Result<T>>, b: seq<Result<T>>)
    requires multiset(a) == multiset(b) && AllOk(a)
    ensures AllOk(b) && |b| == |a|
    ensures multiset(Values(a)) == multiset(Values(b))
    decreases |a|
  {
    AllOkPermutation(a, b);
    if a != [] {
      var x := a[0];
      assert x in multiset(b);
      var j :| 0 <= j < |b| && b[j] == x;
      var rest := b[..j] + b[j + 1..];
      MultisetWithout(b, j);
      MultisetCons(a);
      ValuesCons(a);
      ValuesPermutation(a[1..], rest);
      ValuesWithout(b, j);
    }
  }

  /** Collecting the outcomes in any completion order (a permutation of the input order):
      it succeeds exactly when every outcome does, and then yields one value per input, the
      same values as in input order though maybe not in that order; otherwise it fails
      with the error of some failed outcome and yields nothing. */
  lemma CollectAnyOrder<T>(inputOrder: seq<Result<T>>, completed: seq<Result<T>>)
    requires multiset(completed) == multiset(inputOrder)
    ensures CollectInOrder(completed).Ok? <==> AllOk(inputOrder)
    ensures CollectInOrder(completed).Ok? ==>
      && |CollectInOrder(completed).value| == |inputOrder|
      && multiset(CollectInOrder(completed).value) == multiset(Values(inputOrder))
    ensures CollectInOrder(completed).Err? ==>
      exists j :: 0 <= j < |inputOrder| && inputOrder[j] == Err(CollectInOrder(completed).error)
  {
    CollectInOrderSpec(completed);
    if AllOk(inputOrder) {
      ValuesPermutation(inputOrder, completed);
    } else if AllOk(completed) {
      ValuesPermutation(completed, inputOrder);
    }
    if CollectInOrder(completed).Err? {
      var k := FirstFailure(completed);
      assert completed[k] in multiset(inputOrder);
    }
  }

  // ---------------------------------------------------------------------------
  // The three responses

  /** `summonerChampionMasteriesHandler`: catalog, then summoner, then its masteries by
      `puuid`, then the join. */
  function SummonerChampionMasteries(up: Upstream, region: ServerRegion, summonerName: string): Result<seq<ChampionMastery>> {
    var catalog :- FetchChampions(up);
    var summoner :- FetchSummoner(up, region, summonerName);
    var masteries :- FetchChampionMasteries(up, region, summoner.puuid);
    Join(catalog.data, masteries)
  }

  /** The single-champion comparison with the per-player results taken in the order of the
      names: the target must be in the catalog, then every player must succeed. */
  function ChampionCompare(up: Upstream, region: ServerRegion, championId: int, names: seq<string>): Result<ChampionCompareResponse> {
    var catalog :- FetchChampions(up);
    if championId !in catalog.data then Err(InternalServerError)
    else
      var results :- CollectInOrder(ChampionMasteryOutcomes(up, region, names, championId));
      var info :- ChampionInfoOf(catalog.data[championId]);
      Ok(ChampionCompareResponse(info, results))
  }

  /** The champion-class comparison with the per-player results taken in the order of the
      names: the class subset must be non-empty, then every player must succeed. */
  function ChampionClassCompare(up: Upstream, region: ServerRegion, championClass: string, names: seq<string>): Result<ChampionClassCompareResponse> {
    var catalog :- FetchChampions(up);
    var subset := ClassSubset(catalog.data, championClass);
    if |subset| == 0 then Err(InternalServerError)
    else
      var results :- CollectInOrder(ClassMasteriesOutcomes(up, region, subset, names));
      Ok(ClassCompareResponseOf(championClass, results))
  }

  /** The comparison in the order of its steps: catalog, target, players, target info. */
  lemma ChampionCompareSteps(up: Upstream, region: ServerRegion, championId: int, names: seq<string>)
    ensures FetchChampions(up).Err? ==> ChampionCompare(up, region, championId, names) == Err(FetchChampions(up).error)
    ensures FetchChampions(up).Ok? && championId !in FetchChampions(up).value.data ==>
      ChampionCompare(up, region, championId, names) == Err(InternalServerError)
    ensures FetchChampions(up).Ok? && championId in FetchChampions(up).value.data ==>
      var outcomes := ChampionMasteryOutcomes(up, region, names, championId);
      var info := ChampionInfoOf(FetchChampions(up).value.data[championId]);
      ChampionCompare(up, region, championId, names) ==
        if !AllOk(outcomes) then Err(outcomes[FirstFailure(outcomes)].error)
        else if info.Err? then Err(info.error)
        else Ok(ChampionCompareResponse(info.value, Values(outcomes)))
  {
    CollectInOrderSpec(ChampionMasteryOutcomes(up, region, names, championId));
  }

  /** The class comparison in the order of its steps: catalog, subset, players. */
  lemma ChampionClassCompareSteps(up: Upstream, region: ServerRegion, championClass: string, names: seq<string>)
    ensures FetchChampions(up).Err? ==> ChampionClassCompare(up, region, championClass, names) == Err(FetchChampions(up).error)
    ensures FetchChampions(up).Ok? && |ClassSubset(FetchChampions(up).value.data, championClass)| == 0 ==>
      ChampionClassCompare(up, region, championClass, names) == Err(InternalServerError)
    ensures FetchChampions(up).Ok? && |ClassSubset(FetchChampions(up).value.data, championClass)| != 0 ==>
      var outcomes := ClassMasteriesOutcomes(up, region, ClassSubset(FetchChampions(up).value.data, championClass), names);
      ChampionClassCompare(up, region, championClass, names) ==
        if !AllOk(outcomes) then Err(outcomes[FirstFailure(outcomes)].error)
        else Ok(ClassCompareResponseOf(championClass, Values(outcomes)))
  {
    if FetchChampions(up).Ok? {
      CollectInOrderSpec(ClassMasteriesOutcomes(up, region, ClassSubset(FetchChampions(up).value.data, championClass), names));
    }
  }

  /** The listing rethrows a failed catalog, summoner or masteries fetch as it came; once
      all three succeed, it succeeds exactly when every mastery joins. */
  lemma SummonerChampionMasteriesFailures(up: Upstream, region: ServerRegion, summonerName: string)
    ensures FetchChampions(up).Err? ==>
      SummonerChampionMasteries(up, region, summonerName) == Err(FetchChampions(up).error)
    ensures FetchChampions(up).Ok? && FetchSummoner(up, region, summonerName).Err? ==>
      SummonerChampionMasteries(up, region, summonerName) == Err(FetchSummoner(up, region, summonerName).error)
    ensures FetchChampions(up).Ok? && FetchSummoner(up, region, summonerName).Ok? ==>
      var ms := FetchChampionMasteries(up, region, FetchSummoner(up, region, summonerName).value.puuid);
      && (ms.Err? ==> SummonerChampionMasteries(up, region, summonerName) == Err(ms.error))
      && (ms.Ok? ==> (SummonerChampionMasteries(up, region, summonerName).Ok? <==>
            forall i :: 0 <= i < |ms.value| ==> Joins(FetchChampions(up).value.data, ms.value[i])))
  {
    if FetchChampions(up).Ok? && FetchSummoner(up, region, summonerName).Ok? {
      var ms := FetchChampionMasteries(up, region, FetchSummoner(up, region, summonerName).value.puuid);
      if ms.Ok? {
        JoinSpec(FetchChampions(up).value.data, ms.value);
      }
    }
  }

  /** A listing is the join of the player's masteries, fetched by the resolved `puuid`,
      against the catalog: one record per mastery, in order. */
  lemma SummonerChampionMasteriesJoin(up: Upstream, region: ServerRegion, summonerName: string)
    requires SummonerChampionMasteries(up, region, summonerName).Ok?
    ensures FetchChampions(up).Ok? && FetchSummoner(up, region, summonerName).Ok?
    ensures var data := FetchChampions(up).value.data;
      var masteries := FetchChampionMasteries(up, region, FetchSummoner(up, region, summonerName).value.puuid);
      var r := SummonerChampionMasteries(up, region, summonerName).value;
      && masteries.Ok?
      && |r| == |masteries.value|
      && forall i :: 0 <= i < |r| ==>
           masteries.value[i].championId in data &&
           MakeChampionMastery(data[masteries.value[i].championId], masteries.value[i]) == Ok(r[i])
  {
    var catalog := FetchChampions(up);
    var summoner := FetchSummoner(up, region, summonerName);
    var masteries := FetchChampionMasteries(up, region, summoner.value.puuid);
    JoinSpec(catalog.value.data, masteries.value);
  }

  /** An unknown target fails with `.internalServerError` whatever the players; with the
      target known, the comparison succeeds exactly when every player does (and the target's
      image name can be formed), with one result per name in order; no names, no results. */
  lemma ChampionCompareSpec(up: Upstream, region: ServerRegion, championId: int, names: seq<string>)
    ensures FetchChampions(up).Ok? && championId !in FetchChampions(up).value.data ==>
      ChampionCompare(up, region, championId, names) == Err(InternalServerError)
    ensures var r := ChampionCompare(up, region, championId, names);
      r.Ok? <==>
        && FetchChampions(up).Ok? && championId in FetchChampions(up).value.data
        && AllOk(ChampionMasteryOutcomes(up, region, names, championId))
        && ChampionInfoOf(FetchChampions(up).value.data[championId]).Ok?
    ensures var r := ChampionCompare(up, region, championId, names);
      r.Ok? ==>
        && r.value.championInfo == ChampionInfoOf(FetchChampions(up).value.data[championId]).value
        && r.value.championInfo.id == championId
        && |r.value.results| == |names|
        && forall i :: 0 <= i < |names| ==>
             FetchSummonerChampionMastery(up, region, names[i], championId) == Ok(r.value.results[i])
    ensures (names == [] && FetchChampions(up).Ok? && championId in FetchChampions(up).value.data
      && ChampionInfoOf(FetchChampions(up).value.data[championId]).Ok?) ==>
      ChampionCompare(up, region, championId, names).Ok? &&
      ChampionCompare(up, region, championId, names).value.results == []
  {
    CollectInOrderSpec(ChampionMasteryOutcomes(up, region, names, championId));
  }

  /** An empty class subset fails with `.internalServerError` whatever the players; with a
      non-empty subset the comparison succeeds exactly when every player does, with one
      result per name in order, the class echoed and the winner chosen among them. */
  lemma ChampionClassCompareSpec(up: Upstream, region: ServerRegion, championClass: string, names: seq<string>)
    ensures FetchChampions(up).Ok? && ClassSubset(FetchChampions(up).value.data, championClass) == {} ==>
      ChampionClassCompare(up, region, championClass, names) == Err(InternalServerError)
    ensures var r := ChampionClassCompare(up, region, championClass, names);
      r.Ok? <==>
        && FetchChampions(up).Ok? && ClassSubset(FetchChampions(up).value.data, championClass) != {}
        && AllOk(ClassMasteriesOutcomes(up, region, ClassSubset(FetchChampions(up).value.data, championClass), names))
    ensures var r := ChampionClassCompare(up, region, championClass, names);
      r.Ok? ==>
        var subset := ClassSubset(FetchChampions(up).value.data, championClass);
        && r.value.championClass == championClass
        && |r.value.results| == |names|
        && (forall i :: 0 <= i < |names| ==>
             FetchSummonerChampionMasteries(up, region, subset, names[i]) == Ok(r.value.results[i]))
        && r.value.winner == Winner(r.value.results)
  {
    if FetchChampions(up).Ok? {
      var subset := ClassSubset(FetchChampions(up).value.data, championClass);
      CollectInOrderSpec(ClassMasteriesOutcomes(up, region, subset, names));
    }
  }
}
