/** The three routes and the sequential request handlers behind them: the handlers fetch
    one player after another, and the comparison routes answer every caught failure with
    `.badRequest`. */
module Routes {
  import opened Results
  import opened Text
  import opened Riot
  import opened RiotFetch
  import opened ChampionsResponse
  import opened ChampionMastery
  import opened ChampionCompareResponse
  import opened ChampionClassCompareResponse
  import opened Aggregation

  /** `ChampionCompareRequest` as it arrives: the region is still its raw value. */
  datatype ChampionCompareBody = ChampionCompareBody(serverRegion: string, championId: int, summonerNames: seq<string>)

  /** `ChampionClassCompareRequest` as it arrives. */
  datatype ChampionClassCompareBody = ChampionClassCompareBody(serverRegion: string, championClass: string, summonerNames: seq<string>)

  /** How many players a sequential handler starts on: all of them, or up to and including
      the first that fails. */
  function Attempted<T>(outcomes: seq<Result<T>>): (n: nat)
    ensures n <= |outcomes|
    ensures AllOk(outcomes) ==> n == |outcomes|
    ensures !AllOk(outcomes) ==> n == FirstFailure(outcomes) + 1
  {
    if FirstFailure(outcomes) < |outcomes| then FirstFailure(outcomes) + 1 else |outcomes|
  }

  /** The `for summonerName in summonerNames` loops of the handlers: the work for each
      name, one name after another in their order, appending each result; the first
      failure is rethrown. `fetched` lists the names whose work started. */
  method EachInOrder<T>(names: seq<string>, task: string -> Result<T>) returns (r: Result<seq<T>>, fetched: seq<string>)
    ensures r == CollectInOrder(Outcomes(names, task))
    ensures fetched == names[..Attempted(Outcomes(names, task))]
  {
    fetched := [];
    ghost var outcomes := Outcomes(names, task);
    CollectInOrderSpec(outcomes);
    var results: seq<T> := [];
    var i := 0;
    while i < |names|
      invariant 0 <= i <= |names|
      invariant fetched == names[..i]
      invariant |results| == i
      invariant forall j :: 0 <= j < i ==> outcomes[j] == Ok(results[j])
    {
      fetched := fetched + [names[i]];
      var result := task(names[i]);
      if result.Err? {
        FirstFailureAt(outcomes, i);
        r := Err(result.error);
        return;
      }
      results := results + [result.value];
      i := i + 1;
    }
    assert results == Values(outcomes);
    r := Ok(results);
  }

  /** `championCompareHandler`: the target champion is looked up before any player is
      fetched; after the players, its info is built. `fetched` lists the names whose work
      started: none when the catalog or the target is missing. */
  method ChampionCompareHandler(up: Upstream, region: ServerRegion, championId: int, names: seq<string>)
    returns (r: Result<ChampionCompareResponse>, fetched: seq<string>)
    ensures r == ChampionCompare(up, region, championId, names)
    ensures fetched ==
      if FetchChampions(up).Err? || championId !in FetchChampions(up).value.data then []
      else names[..Attempted(ChampionMasteryOutcomes(up, region, names, championId))]
    ensures names == [] ==> fetched == []
  {
    fetched := [];
    var champions := FetchChampions(up);
    if champions.Err? {
      r := Err(champions.error);
      return;
    }
    if championId !in champions.value.data {
      r := Err(InternalServerError);
      return;
    }
    var targetChampion := champions.value.data[championId];
    var results;
    results, fetched := EachInOrder(names, MasteryTask(up, region, championId));
    if results.Err? {
      r := Err(results.error);
      return;
    }
    var championInfo := ChampionInfoOf(targetChampion);
    if championInfo.Err? {
      r := Err(championInfo.error);
      return;
    }
    r := Ok(ChampionCompareResponse(championInfo.value, results.value));
  }

  /** `championClassCompareHandler`: the class subset must be non-empty before any player
      is fetched. */
  method ChampionClassCompareHandler(up: Upstream, region: ServerRegion, championClass: string, names: seq<string>)
    returns (r: Result<ChampionClassCompareResponse>, fetched: seq<string>)
    ensures r == ChampionClassCompare(up, region, championClass, names)
    ensures fetched ==
      if FetchChampions(up).Err? || ClassSubset(FetchChampions(up).value.data, championClass) == {} then []
      else names[..Attempted(ClassMasteriesOutcomes(up, region, ClassSubset(FetchChampions(up).value.data, championClass), names))]
    ensures names == [] ==> fetched == []
  {
    fetched := [];
    var champions := FetchChampions(up);
    if champions.Err? {
      r := Err(champions.error);
      return;
    }
    var filteredChampions := ClassSubset(champions.value.data, championClass);
    if |filteredChampions| == 0 {
      r := Err(InternalServerError);
      return;
    }
    var results;
    results, fetched := EachInOrder(names, MasteriesTask(up, region, filteredChampions));
    if results.Err? {
      r := Err(results.error);
      return;
    }
    r := Ok(ClassCompareResponseOf(championClass, results.value));
  }

  /** A missing target or an empty class fails the comparison with `.internalServerError`
      whatever the names, and the handlers then fetch no player at all. */
  lemma GuardsComeFirst(up: Upstream, region: ServerRegion, championId: int, championClass: string)
    requires FetchChampions(up).Ok?
    ensures championId !in FetchChampions(up).value.data ==>
      forall names :: ChampionCompare(up, region, championId, names) == Err(InternalServerError)
    ensures ClassSubset(FetchChampions(up).value.data, championClass) == {} ==>
      forall names :: ChampionClassCompare(up, region, championClass, names) == Err(InternalServerError)
  {
    if championId !in FetchChampions(up).value.data {
      forall names ensures ChampionCompare(up, region, championId, names) == Err(InternalServerError) {
        ChampionCompareSteps(up, region, championId, names);
      }
    }
    if ClassSubset(FetchChampions(up).value.data, championClass) == {} {
      forall names ensures ChampionClassCompare(up, region, championClass, names) == Err(InternalServerError) {
        ChampionClassCompareSteps(up, region, championClass, names);
      }
    }
  }

  /** With no names, a class comparison over a non-empty class has no results and no
      winner (and both handlers fetch nothing: see their `fetched`). */
  lemma NoNamesNoResults(up: Upstream, region: ServerRegion, championClass: string)
    requires FetchChampions(up).Ok? && ClassSubset(FetchChampions(up).value.data, championClass) != {}
    ensures ChampionClassCompare(up, region, championClass, []) == Ok(ChampionClassCompareResponse(championClass, "N/A", []))
  {
    ChampionClassCompareSteps(up, region, championClass, []);
  }

  /** The route guard: the region parameter, or the empty string when it is absent, must be
      a region's raw value, and the name parameter must be present. */
  function SummonerChampionMasteriesRoute(up: Upstream, serverRegion: Option<string>, summonerName: Option<string>): Result<seq<ChampionMastery>> {
    var raw := if serverRegion.Some? then serverRegion.value else "";
    match ParseServerRegion(raw)
    case None => Err(BadRequest)
    case Some(region) =>
      if summonerName.None? then Err(BadRequest)
      else SummonerChampionMasteries(up, region, summonerName.value)
  }

  /** An unknown or missing region, or a missing name, is a bad request and nothing is
      fetched; otherwise the route answers with the handler's result. */
  lemma SummonerChampionMasteriesRouteSpec(up: Upstream, serverRegion: Option<string>, summonerName: Option<string>)
    ensures serverRegion.None? ==> SummonerChampionMasteriesRoute(up, serverRegion, summonerName) == Err(BadRequest)
    ensures summonerName.None? ==> SummonerChampionMasteriesRoute(up, serverRegion, summonerName) == Err(BadRequest)
    ensures (serverRegion.Some? && forall r :: RawValue(r) != serverRegion.value) ==>
      SummonerChampionMasteriesRoute(up, serverRegion, summonerName) == Err(BadRequest)
    ensures forall r: ServerRegion, name ::
      SummonerChampionMasteriesRoute(up, Some(RawValue(r)), Some(name)) == SummonerChampionMasteries(up, r, name)
  {
    forall r: ServerRegion ensures RawValue(r) != "" {
      RawValueShape(r);
    }
    forall r: ServerRegion, name
      ensures SummonerChampionMasteriesRoute(up, Some(RawValue(r)), Some(name)) == SummonerChampionMasteries(up, r, name)
    {
      ParseRawValue(r);
    }
  }

  /** `do { ... } catch { throw Abort(.badRequest) }`: every thrown error becomes
      `.badRequest`; a trap is not an error and still ends the process. */
  function CaughtAsBadRequest<T>(r: Result<T>): Result<T> {
    if r.Err? && r.error != Trap then Err(BadRequest) else r
  }

  /** `request.content.decode(ChampionCompareRequest.self)`: the region must be a raw
      value and the champion id must fit `ChampionID`, a 64-bit integer. */
  function DecodeCompareBody(body: Option<ChampionCompareBody>): Result<(ServerRegion, int, seq<string>)> {
    if body.None? || !IsInt64(body.value.championId) then Err(DecodingError)
    else match ParseServerRegion(body.value.serverRegion)
      case None => Err(DecodingError)
      case Some(region) => Ok((region, body.value.championId, body.value.summonerNames))
  }

  /** `request.content.decode(ChampionClassCompareRequest.self)`. */
  function DecodeClassCompareBody(body: Option<ChampionClassCompareBody>): Result<(ServerRegion, string, seq<string>)> {
    if body.None? then Err(DecodingError)
    else match ParseServerRegion(body.value.serverRegion)
      case None => Err(DecodingError)
      case Some(region) => Ok((region, body.value.championClass, body.value.summonerNames))
  }

  /** What `POST /compare/champion` answers, `body` being `None` when it is not a
      `ChampionCompareRequest` in JSON. */
  function CompareChampion(up: Upstream, body: Option<ChampionCompareBody>): Result<ChampionCompareResponse> {
    CaughtAsBadRequest(
      var request :- DecodeCompareBody(body);
      ChampionCompare(up, request.0, request.1, request.2))
  }

  /** What `POST /compare/champion-class` answers. */
  function CompareChampionClass(up: Upstream, body: Option<ChampionClassCompareBody>): Result<ChampionClassCompareResponse> {
    CaughtAsBadRequest(
      var request :- DecodeClassCompareBody(body);
      ChampionClassCompare(up, request.0, request.1, request.2))
  }

  /** The `POST /compare/champion` route. */
  method PostCompareChampion(up: Upstream, body: Option<ChampionCompareBody>) returns (r: Result<ChampionCompareResponse>)
    ensures r == CompareChampion(up, body)
  {
    var request := DecodeCompareBody(body);
    if request.Err? {
      r := Err(BadRequest);
      return;
    }
    var result, _ := ChampionCompareHandler(up, request.value.0, request.value.1, request.value.2);
    r := CaughtAsBadRequest(result);
  }

  /** The `POST /compare/champion-class` route. */
  method PostCompareChampionClass(up: Upstream, body: Option<ChampionClassCompareBody>) returns (r: Result<ChampionClassCompareResponse>)
    ensures r == CompareChampionClass(up, body)
  {
    var request := DecodeClassCompareBody(body);
    if request.Err? {
      r := Err(BadRequest);
      return;
    }
    var result, _ := ChampionClassCompareHandler(up, request.value.0, request.value.1, request.value.2);
    r := CaughtAsBadRequest(result);
  }

  /** A comparison route succeeds exactly when the body decodes, with a known region, and
      the handler succeeds, answering the same; every other outcome is `.badRequest`, except
      a trap, which passes through: an upstream 404 or 500 never reaches the client as
      such. */
  lemma CompareRoutesAnswerBadRequest(up: Upstream, body: Option<ChampionCompareBody>, classBody: Option<ChampionClassCompareBody>)
    ensures body.None? ==> CompareChampion(up, body) == Err(BadRequest)
    ensures (body.Some? && ParseServerRegion(body.value.serverRegion).None?) ==> CompareChampion(up, body) == Err(BadRequest)
    ensures (body.Some? && !IsInt64(body.value.championId)) ==> CompareChampion(up, body) == Err(BadRequest)
    ensures CompareChampion(up, body).Err? ==> CompareChampion(up, body).error in {BadRequest, Trap}
    ensures CompareChampion(up, body).Ok? <==>
      && body.Some? && ParseServerRegion(body.value.serverRegion).Some? && IsInt64(body.value.championId)
      && ChampionCompare(up, ParseServerRegion(body.value.serverRegion).value, body.value.championId, body.value.summonerNames).Ok?
    ensures CompareChampion(up, body).Ok? ==>
      CompareChampion(up, body) ==
        ChampionCompare(up, ParseServerRegion(body.value.serverRegion).value, body.value.championId, body.value.summonerNames)
    ensures classBody.None? ==> CompareChampionClass(up, classBody) == Err(BadRequest)
    ensures (classBody.Some? && ParseServerRegion(classBody.value.serverRegion).None?) ==>
      CompareChampionClass(up, classBody) == Err(BadRequest)
    ensures CompareChampionClass(up, classBody).Err? ==> CompareChampionClass(up, classBody).error in {BadRequest, Trap}
    ensures CompareChampionClass(up, classBody).Ok? <==>
      && classBody.Some? && ParseServerRegion(classBody.value.serverRegion).Some?
      && ChampionClassCompare(up, ParseServerRegion(classBody.value.serverRegion).value, classBody.value.championClass, classBody.value.summonerNames).Ok?
    ensures CompareChampionClass(up, classBody).Ok? ==>
      CompareChampionClass(up, classBody) ==
        ChampionClassCompare(up, ParseServerRegion(classBody.value.serverRegion).value, classBody.value.championClass, classBody.value.summonerNames)
  {
  }
}
