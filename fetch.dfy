/** The upstream calls of the backend: the request URLs it builds, the credential check,
    the status check and the decoding of each response. The HTTP exchange itself is an
    input: `Upstream` says what the network answers to each URL. */
module RiotFetch {
  import opened Results
  import opened Text
  import opened HttpStatus
  import opened Riot
  import opened ChampionsResponse

  /** What a GET yields: a response with its status code and its body (`None` when the
      body does not decode as the expected record), or `NoResponse` when the call throws
      before any response exists. */
  datatype Response<T> = Response(status: int, body: Option<T>) | NoResponse

  /** The environment one request runs in: the `X-Riot-Token` variable and what each GET
      answers, keyed by the request URL. */
  datatype Upstream = Upstream(
    riotToken: Option<string>,
    championsResponse: Response<WireCatalog>,
    summonerAt: string -> Response<SummonerDTO>,
    masteriesAt: string -> Response<seq<ChampionMasteryDTO>>,
    masteryAt: string -> Response<ChampionMasteryDTO>)

  const ApiHostSuffix := ".api.riotgames.com"
  const SummonerPath := "/lol/summoner/v4/summoners/by-name/"
  const MasteriesPath := "/lol/champion-mastery/v4/champion-masteries/by-puuid/"
  const ByChampionPath := "/by-champion/"

  /** `baseURL(for:)`: the host of a region is its lower-cased raw value. */
  function BaseURL(region: ServerRegion): string {
    "https://" + Lowercased(RawValue(region)) + ApiHostSuffix
  }

  function SummonerURL(region: ServerRegion, summonerName: string): string {
    BaseURL(region) + SummonerPath + summonerName
  }

  function MasteriesURL(region: ServerRegion, puuid: string): string {
    BaseURL(region) + MasteriesPath + puuid
  }

  function MasteryURL(region: ServerRegion, puuid: string, championId: int): string {
    MasteriesURL(region, puuid) + ByChampionPath + Describe(championId)
  }

  /** Raw values are already lower case and hold no dot. */
  lemma RawValueShape(r: ServerRegion)
    ensures Lowercased(RawValue(r)) == RawValue(r)
    ensures 2 <= |RawValue(r)| <= 4
    ensures forall i :: 0 <= i < |RawValue(r)| ==> RawValue(r)[i] != '.'
  {
  }

  /** The host names one region only: distinct regions are sent to distinct hosts. */
  lemma BaseURLInjective(a: ServerRegion, b: ServerRegion)
    ensures BaseURL(a) == BaseURL(b) <==> a == b
  {
    RawValueShape(a);
    RawValueShape(b);
    if BaseURL(a) == BaseURL(b) {
      assert RawValue(a) == BaseURL(a)[8..8 + |RawValue(a)|];
      assert RawValue(b) == BaseURL(b)[8..8 + |RawValue(b)|];
      RawValueInjective(a, b);
    }
  }

  /** A URL that starts with a base URL determines the region: the host is the text up
      to the first dot after the scheme. */
  lemma {:induction false} BaseURLPrefixDeterminesRegion(a: ServerRegion, b: ServerRegion, s: string, t: string)
    requires BaseURL(a) + s == BaseURL(b) + t
    ensures a == b && s == t
  {
    RawValueShape(a);
    RawValueShape(b);
    var u := BaseURL(a) + s;
    var x, y := RawValue(a), RawValue(b);
    assert u[8 + |x|] == '.';
    assert u == BaseURL(b) + t;
    assert u[8 + |y|] == '.';
    assert |BaseURL(a)| == |BaseURL(b)|;
    assert BaseURL(a) == u[..|BaseURL(a)|] == BaseURL(b);
    BaseURLInjective(a, b);
  }

  /** The summoner URL carries the region and the exact name: distinct lookups are
      distinct requests. */
  lemma SummonerURLInjective(a: ServerRegion, m: string, b: ServerRegion, n: string)
    ensures SummonerURL(a, m) == SummonerURL(b, n) <==> a == b && m == n
  {
    if SummonerURL(a, m) == SummonerURL(b, n) {
      assert SummonerURL(a, m) == BaseURL(a) + (SummonerPath + m);
      assert SummonerURL(b, n) == BaseURL(b) + (SummonerPath + n);
      BaseURLPrefixDeterminesRegion(a, b, SummonerPath + m, SummonerPath + n);
      assert m == (SummonerPath + m)[|SummonerPath|..];
      assert n == (SummonerPath + n)[|SummonerPath|..];
    }
  }

  /** The masteries URL carries the region and the exact `puuid`. */
  lemma MasteriesURLInjective(a: ServerRegion, p: string, b: ServerRegion, q: string)
    ensures MasteriesURL(a, p) == MasteriesURL(b, q) <==> a == b && p == q
  {
    if MasteriesURL(a, p) == MasteriesURL(b, q) {
      assert MasteriesURL(a, p) == BaseURL(a) + (MasteriesPath + p);
      assert MasteriesURL(b, q) == BaseURL(b) + (MasteriesPath + q);
      BaseURLPrefixDeterminesRegion(a, b, MasteriesPath + p, MasteriesPath + q);
      assert p == (MasteriesPath + p)[|MasteriesPath|..];
      assert q == (MasteriesPath + q)[|MasteriesPath|..];
    }
  }

  /** The single-mastery URL ends with the champion id, which can be read back. */
  lemma MasteryURLEndsWithId(region: ServerRegion, puuid: string, championId: int)
    requires IsInt64(championId)
    ensures var u := MasteryURL(region, puuid, championId);
      var d := Describe(championId);
      |u| >= |d| && ParseInt64(u[|u| - |d|..]) == Some(championId)
  {
    var u := MasteryURL(region, puuid, championId);
    var d := Describe(championId);
    assert u[|u| - |d|..] == d;
    ParseDescribe(championId);
  }

  /** `try await request.client.get(...)`, which throws when no response arrives, then
      `guard response.status.isValid() else { throw Abort(response.status) }`, then the
      decode. */
  function Checked<T>(response: Response<T>): (r: Result<T>)
    ensures r.Ok? <==> response.Response? && IsValid(response.status) && response.body.Some?
  {
    if response.NoResponse? then Err(Transport)
    else if !IsValid(response.status) then Err(Abort(response.status))
    else match response.body
      case None => Err(DecodingError)
      case Some(v) => Ok(v)
  }

  /** No response is a transport error; a rejected status is rethrown as that status; an
      accepted status with an undecodable body is a decoding error; otherwise the decoded
      body is the result. */
  lemma CheckedSpec<T>(response: Response<T>)
    ensures response.NoResponse? ==> Checked(response) == Err(Transport)
    ensures response.Response? && !IsValid(response.status) ==> Checked(response) == Err(Abort(response.status))
    ensures response.Response? && IsValid(response.status) && response.body.None? ==> Checked(response) == Err(DecodingError)
    ensures Checked(response).Ok? ==> response.body == Some(Checked(response).value)
  {
  }

  /** `fetchChampions`: no credential needed; the body is decoded as the catalog. */
  function FetchChampions(up: Upstream): (r: Result<Catalog>)
    ensures r.Ok? ==> WellKeyed(r.value.data)
  {
    var wire :- Checked(up.championsResponse);
    DecodeCatalog(wire)
  }

  /** `fetchSummoner`: fails with `.internalServerError` when the credential is missing. */
  function FetchSummoner(up: Upstream, region: ServerRegion, summonerName: string): Result<SummonerDTO> {
    if up.riotToken.None? then Err(InternalServerError)
    else Checked(up.summonerAt(SummonerURL(region, summonerName)))
  }

  /** `fetchChampionMasteries`. */
  function FetchChampionMasteries(up: Upstream, region: ServerRegion, puuid: string): Result<seq<ChampionMasteryDTO>> {
    if up.riotToken.None? then Err(InternalServerError)
    else Checked(up.masteriesAt(MasteriesURL(region, puuid)))
  }

  /** `fetchChampionMastery`. */
  function FetchChampionMastery(up: Upstream, region: ServerRegion, puuid: string, championId: int): Result<ChampionMasteryDTO> {
    if up.riotToken.None? then Err(InternalServerError)
    else Checked(up.masteryAt(MasteryURL(region, puuid, championId)))
  }

  /** Without the credential every game-API call fails with `.internalServerError` whatever
      the network would answer, while the catalog call does not depend on it. */
  lemma MissingTokenFailsGameCalls(up: Upstream, region: ServerRegion, name: string, puuid: string, championId: int)
    requires up.riotToken.None?
    ensures FetchSummoner(up, region, name) == Err(InternalServerError)
    ensures FetchChampionMasteries(up, region, puuid) == Err(InternalServerError)
    ensures FetchChampionMastery(up, region, puuid, championId) == Err(InternalServerError)
    ensures forall t :: FetchChampions(up.(riotToken := t)) == FetchChampions(up)
  {
  }

  /** With the credential, a call succeeds exactly when its URL is answered with an
      accepted status and a decodable body, and then returns that body; a rejected status
      is rethrown as that status, and no answer at all is a transport error. */
  lemma GameCallsCheckTheirAnswer(up: Upstream, region: ServerRegion, name: string, puuid: string, championId: int)
    requires up.riotToken.Some?
    ensures var a := up.summonerAt(SummonerURL(region, name));
      var r := FetchSummoner(up, region, name);
      && (r.Ok? <==> a.Response? && IsValid(a.status) && a.body.Some?)
      && (r.Ok? ==> a.body == Some(r.value))
      && (a.Response? && !IsValid(a.status) ==> r == Err(Abort(a.status)))
      && (a.NoResponse? ==> r == Err(Transport))
    ensures var a := up.masteriesAt(MasteriesURL(region, puuid));
      var r := FetchChampionMasteries(up, region, puuid);
      && (r.Ok? <==> a.Response? && IsValid(a.status) && a.body.Some?)
      && (r.Ok? ==> a.body == Some(r.value))
      && (a.Response? && !IsValid(a.status) ==> r == Err(Abort(a.status)))
      && (a.NoResponse? ==> r == Err(Transport))
    ensures var a := up.masteryAt(MasteryURL(region, puuid, championId));
      var r := FetchChampionMastery(up, region, puuid, championId);
      && (r.Ok? <==> a.Response? && IsValid(a.status) && a.body.Some?)
      && (r.Ok? ==> a.body == Some(r.value))
      && (a.Response? && !IsValid(a.status) ==> r == Err(Abort(a.status)))
      && (a.NoResponse? ==> r == Err(Transport))
  {
  }
}
