/** The record returned by the single-player listing: one mastery joined with its
    catalog entry, with a display string for tokens and two image URLs. */
module ChampionMastery {
  import opened Results
  import opened Text
  import opened Riot
  import opened ChampionsResponse

  /** `ChampionMastery`. `lastTimePlayed` is in milliseconds since the epoch. */
  datatype ChampionMastery = ChampionMastery(
    id: string,
    name: string,
    championLevel: int,
    points: int,
    pointsSinceLastLevel: int,
    pointsUntilNextLevel: int,
    tokensEarned: int,
    tokensEarnedOutOfMax: string,
    lastTimePlayed: int,
    tags: seq<string>,
    imageURL: string,
    splashImageURL: string)

  /** `calculateTokensEarnedOutOfMax`: level 6 shows tokens out of 3, level 5 out of 2,
      every other level "N/A". */
  function TokensEarnedOutOfMax(tokensEarned: int, championLevel: int): string {
    if championLevel == 6 then Describe(tokensEarned) + "/3"
    else if championLevel == 5 then Describe(tokensEarned) + "/2"
    else "N/A"
  }

  /** The display string is "N/A" exactly at levels other than 5 and 6; at those two it
      ends in "/3" or "/2" and what comes before the slash reads back as the token count. */
  lemma TokensDisplay(tokensEarned: int, championLevel: int)
    requires IsInt64(tokensEarned)
    ensures var r := TokensEarnedOutOfMax(tokensEarned, championLevel);
      && (r == "N/A" <==> championLevel != 5 && championLevel != 6)
      && (championLevel == 6 ==> |r| > 2 && r[|r| - 2..] == "/3")
      && (championLevel == 5 ==> |r| > 2 && r[|r| - 2..] == "/2")
      && (championLevel == 5 || championLevel == 6 ==> ParseInt64(r[..|r| - 2]) == Some(tokensEarned))
  {
    var r := TokensEarnedOutOfMax(tokensEarned, championLevel);
    if championLevel == 5 || championLevel == 6 {
      assert r[..|r| - 2] == Describe(tokensEarned);
      ParseDescribe(tokensEarned);
      assert r[|r| - 1] != 'A';
    }
  }

  const ImageURLPrefix: string := "https://ddragon.leagueoflegends.com/cdn/13.24.1/img/champion/"
  const SplashImageURLPrefix: string := "https://ddragon.leagueoflegends.com/cdn/img/champion/loading/"

  /** `imageURL(for:)`. */
  function ImageURL(name: string): string {
    ImageURLPrefix + name + ".png"
  }

  /** `splashImageURL(for:)`. */
  function SplashImageURL(name: string): string {
    SplashImageURLPrefix + name + "_0.jpg"
  }

  /** The name can be read back out of either URL, so both determine it. */
  lemma ImageURLsCarryName(name: string)
    ensures var u := ImageURL(name);
      u[..|ImageURLPrefix|] == ImageURLPrefix && u[|ImageURLPrefix|..|u| - 4] == name
    ensures var u := SplashImageURL(name);
      u[..|SplashImageURLPrefix|] == SplashImageURLPrefix && u[|SplashImageURLPrefix|..|u| - 6] == name
  {
  }

  /** `ChampionMastery.init(champion:championMastery:)`. Computing the image name can trap. */
  function MakeChampionMastery(champion: Champion, mastery: ChampionMasteryDTO): Result<ChampionMastery> {
    var imageName :- ImageURLFormattedName(champion.name);
    Ok(ChampionMastery(
      champion.id,
      champion.name,
      mastery.championLevel,
      mastery.championPoints,
      mastery.championPointsSinceLastLevel,
      mastery.championPointsUntilNextLevel,
      mastery.tokensEarned,
      TokensEarnedOutOfMax(mastery.tokensEarned, mastery.championLevel),
      mastery.lastPlayTime,
      champion.tags,
      ImageURL(imageName),
      SplashImageURL(imageName)))
  }

  /** The joined record takes identity and tags from the champion and every progress field
      from the mastery, its token display follows the level rule of `TokensDisplay`, and
      both its URLs are built from the champion's image name; it
      fails (a trap) exactly when computing that name does. */
  lemma JoinedRecord(champion: Champion, mastery: ChampionMasteryDTO)
    ensures MakeChampionMastery(champion, mastery).Ok? <==> ImageURLFormattedName(champion.name).Ok?
    ensures MakeChampionMastery(champion, mastery).Err? ==> MakeChampionMastery(champion, mastery).error == Trap
    ensures MakeChampionMastery(champion, mastery).Ok? ==>
      var r := MakeChampionMastery(champion, mastery).value;
      var imageName := ImageURLFormattedName(champion.name).value;
      && r.id == champion.id && r.name == champion.name && r.tags == champion.tags
      && r.championLevel == mastery.championLevel
      && r.points == mastery.championPoints
      && r.pointsSinceLastLevel == mastery.championPointsSinceLastLevel
      && r.pointsUntilNextLevel == mastery.championPointsUntilNextLevel
      && r.tokensEarned == mastery.tokensEarned
      && r.lastTimePlayed == mastery.lastPlayTime
      && r.tokensEarnedOutOfMax == TokensEarnedOutOfMax(mastery.tokensEarned, mastery.championLevel)
      && r.imageURL == ImageURL(imageName) && r.splashImageURL == SplashImageURL(imageName)
      && r.imageURL[|ImageURLPrefix|..|r.imageURL| - 4] == imageName
      && r.splashImageURL[|SplashImageURLPrefix|..|r.splashImageURL| - 6] == imageName
  {
    if ImageURLFormattedName(champion.name).Ok? {
      ImageURLsCarryName(ImageURLFormattedName(champion.name).value);
    }
  }
}
