/** The records the upstream game-data API returns, as the backend decodes them, and the
    server regions it can be asked about. Timestamps are milliseconds since the epoch. */
module Riot {
  import opened Results
  import opened Text

  /** A platform routing value. The enumeration lives in the LOLAPIClient package, which is
      not part of this model; these are the upstream platform clusters, with lower-case raw
      values as in the example path `/region/euw1/...`. */
  datatype ServerRegion =
    | Br1 | Eun1 | Euw1 | Jp1 | Kr | La1 | La2 | Na1
    | Oc1 | Ph2 | Ru | Sg2 | Th2 | Tr1 | Tw2 | Vn2

  function RawValue(r: ServerRegion): string {
    match r
    case Br1 => "br1"
    case Eun1 => "eun1"
    case Euw1 => "euw1"
    case Jp1 => "jp1"
    case Kr => "kr"
    case La1 => "la1"
    case La2 => "la2"
    case Na1 => "na1"
    case Oc1 => "oc1"
    case Ph2 => "ph2"
    case Ru => "ru"
    case Sg2 => "sg2"
    case Th2 => "th2"
    case Tr1 => "tr1"
    case Tw2 => "tw2"
    case Vn2 => "vn2"
  }

  const AllRegions: seq<ServerRegion> :=
    [Br1, Eun1, Euw1, Jp1, Kr, La1, La2, Na1, Oc1, Ph2, Ru, Sg2, Th2, Tr1, Tw2, Vn2]

  /** `ServerRegion(rawValue:)`: the region whose raw value is exactly `s`, if any. */
  function ParseServerRegion(s: string): (r: Option<ServerRegion>)
    ensures r.Some? ==> RawValue(r.value) == s
  {
    FindRegion(s, AllRegions)
  }

  function FindRegion(s: string, candidates: seq<ServerRegion>): (r: Option<ServerRegion>)
    ensures r.Some? ==> RawValue(r.value) == s && r.value in candidates
    ensures r.None? ==> forall c :: c in candidates ==> RawValue(c) != s
  {
    if candidates == [] then None
    else if RawValue(candidates[0]) == s then Some(candidates[0])
    else FindRegion(s, candidates[1..])
  }

  /** Every region's raw value is recognised, and as that region. */
  lemma ParseRawValue(r: ServerRegion)
    ensures ParseServerRegion(RawValue(r)) == Some(r)
  {
    assert r in AllRegions;
    var found := ParseServerRegion(RawValue(r));
    assert found.Some?;
    RawValueInjective(found.value, r);
  }

  lemma RawValueInjective(a: ServerRegion, b: ServerRegion)
    requires RawValue(a) == RawValue(b)
    ensures a == b
  {
    var x, y := RawValue(a), RawValue(b);
    assert |x| == |y| && x[0] == y[0] && x[1] == y[1];
    assert |x| == 3 ==> x[2] == y[2];
  }

  /** `SummonerDTO`. */
  datatype SummonerDTO = SummonerDTO(
    accountId: string,
    profileIconId: int,
    revisionDate: int,
    name: string,
    id: string,
    puuid: string,
    summonerLevel: int)

  const ProfileIconURLPrefix: string := "https://ddragon.leagueoflegends.com/cdn/13.24.1/img/profileicon/"

  /** `SummonerDTO.profileIconImageURL`. */
  function ProfileIconImageURL(s: SummonerDTO): string {
    ProfileIconURLPrefix + Describe(s.profileIconId) + ".png"
  }

  /** The icon id can be read back out of the icon URL: distinct 64-bit icon ids give
      distinct URLs. */
  lemma ProfileIconIdRecoverable(s: SummonerDTO)
    requires IsInt64(s.profileIconId)
    ensures var url := ProfileIconImageURL(s);
      |url| > |ProfileIconURLPrefix| + 4 &&
      url[..|ProfileIconURLPrefix|] == ProfileIconURLPrefix &&
      url[|url| - 4..] == ".png" &&
      ParseInt64(url[|ProfileIconURLPrefix|..|url| - 4]) == Some(s.profileIconId)
  {
    var url := ProfileIconImageURL(s);
    assert url[|ProfileIconURLPrefix|..|url| - 4] == Describe(s.profileIconId);
    ParseDescribe(s.profileIconId);
  }

  /** `ChampionMasteryDTO`. */
  datatype ChampionMasteryDTO = ChampionMasteryDTO(
    puuid: string,
    championPointsUntilNextLevel: int,
    chestGranted: bool,
    championId: int,
    lastPlayTime: int,
    championLevel: int,
    summonerId: string,
    championPoints: int,
    championPointsSinceLastLevel: int,
    tokensEarned: int)
}
