/** The response shapes of the single-champion comparison: projections of the upstream
    records onto the fields a client sees. */
module ChampionCompareResponse {
  import opened Results
  import opened Text
  import opened Riot
  import opened ChampionsResponse
  import ChampionMastery

  /** `SummonerInfo`. */
  datatype SummonerInfo = SummonerInfo(profileIconImageURL: string, name: string, summonerLevel: int)

  /** `MasteryInfo`: the mastery without `puuid` and `summonerId`. */
  datatype MasteryInfo = MasteryInfo(
    championPointsUntilNextLevel: int,
    chestGranted: bool,
    championId: int,
    lastPlayTime: int,
    championLevel: int,
    championPoints: int,
    championPointsSinceLastLevel: int,
    tokensEarned: int)

  /** `ChampionInfo`. `tags` are the champion's class tags. */
  datatype ChampionInfo = ChampionInfo(id: int, name: string, tags: seq<string>, imageURL: string, splashImageURL: string)

  /** `SummonerMastery`. */
  datatype SummonerMastery = SummonerMastery(summoner: SummonerInfo, mastery: MasteryInfo)

  /** `ChampionCompareResponse`. */
  datatype ChampionCompareResponse = ChampionCompareResponse(championInfo: ChampionInfo, results: seq<SummonerMastery>)

  /** `SummonerInfo.init(summoner:)`. */
  function SummonerInfoOf(s: SummonerDTO): SummonerInfo {
    SummonerInfo(ProfileIconImageURL(s), s.name, s.summonerLevel)
  }

  /** `MasteryInfo.init(mastery:)`. */
  function MasteryInfoOf(m: ChampionMasteryDTO): MasteryInfo {
    MasteryInfo(
      m.championPointsUntilNextLevel, m.chestGranted, m.championId, m.lastPlayTime,
      m.championLevel, m.championPoints, m.championPointsSinceLastLevel, m.tokensEarned)
  }

  /** The mastery a `MasteryInfo` came from, given the two fields it dropped. */
  function WithIdentity(info: MasteryInfo, puuid: string, summonerId: string): ChampionMasteryDTO {
    ChampionMasteryDTO(
      puuid, info.championPointsUntilNextLevel, info.chestGranted, info.championId,
      info.lastPlayTime, info.championLevel, summonerId, info.championPoints,
      info.championPointsSinceLastLevel, info.tokensEarned)
  }

  /** The projection loses exactly `puuid` and `summonerId`: adding them back restores the
      mastery, and two masteries project alike exactly when they differ in those alone. */
  lemma MasteryInfoDropsOnlyIdentity(m: ChampionMasteryDTO, n: ChampionMasteryDTO)
    ensures WithIdentity(MasteryInfoOf(m), m.puuid, m.summonerId) == m
    ensures MasteryInfoOf(m) == MasteryInfoOf(n) <==> m.(puuid := n.puuid, summonerId := n.summonerId) == n
  {
  }

  /** The summoner's name and level are copied and the icon URL names the icon id. */
  lemma SummonerInfoCopies(s: SummonerDTO)
    requires IsInt64(s.profileIconId)
    ensures var info := SummonerInfoOf(s);
      && info.name == s.name && info.summonerLevel == s.summonerLevel
      && ParseInt64(info.profileIconImageURL[|ProfileIconURLPrefix|..|info.profileIconImageURL| - 4])
           == Some(s.profileIconId)
  {
    ProfileIconIdRecoverable(s);
  }

  /** `ChampionInfo.init(champion:)`. The image URLs come from the catalog entry; they are
      built the way the joined mastery record builds them, so this can trap too. */
  function ChampionInfoOf(c: Champion): Result<ChampionInfo> {
    var imageName :- ImageURLFormattedName(c.name);
    Ok(ChampionInfo(c.key, c.name, c.tags,
                    ChampionMastery.ImageURL(imageName), ChampionMastery.SplashImageURL(imageName)))
  }

  /** The champion's numeric key becomes the `id`; name and tags are copied; the image URLs
      are the ones the joined mastery record for the same champion carries. */
  lemma ChampionInfoOfCatalogEntry(c: Champion, m: ChampionMasteryDTO)
    ensures ChampionInfoOf(c).Ok? <==> ChampionMastery.MakeChampionMastery(c, m).Ok?
    ensures ChampionInfoOf(c).Ok? ==>
      var info := ChampionInfoOf(c).value;
      var joined := ChampionMastery.MakeChampionMastery(c, m).value;
      && info.id == c.key && info.name == c.name && info.tags == c.tags
      && info.imageURL == joined.imageURL && info.splashImageURL == joined.splashImageURL
  {
  }

  /** `SummonerMastery.init(summoner:mastery:)`. */
  function SummonerMasteryOf(s: SummonerDTO, m: ChampionMasteryDTO): SummonerMastery {
    SummonerMastery(SummonerInfoOf(s), MasteryInfoOf(m))
  }
}
