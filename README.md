# league-of-brag backend: a Dafny model of the aggregation core

The backend answers three questions about League of Legends players by calling the
upstream game-data API and the static champion catalog:

- `GET /region/{region}/summoner/{name}/champion-masteries` lists every champion mastery
  of one player, joined with the champion's catalog entry.
- `POST /compare/champion` compares several players on one champion.
- `POST /compare/champion-class` compares several players on all champions of one class
  (tag) and names a winner by total mastery points.

The model covers the deterministic core of these requests.

- **Catalog decoding** (`ChampionsResponse`). The catalog is re-keyed from names to numeric
  keys. It traps on a non-numeric key or on a duplicate key. Encoding re-keys it by name
  again. The image name drops the first apostrophe of a champion name and lower-cases the
  letter after it.
- **Joined records** (`ChampionMastery`). Builds the joined mastery record, with its token
  display and its image URLs.
- **Response projections** (`ChampionCompareResponse`, `ChampionClassCompareResponse`).
  These include the per-player summary and the winner. The winner is chosen by a
  descending sort on total points, with "N/A" when there are no results.
- **Status check** (`HttpStatus`). The upstream status is checked by an explicit list of
  client-error and server-error codes.
- **Upstream calls** (`RiotFetch`). Covers the request URLs, the credential check, the
  status check and the decoding of each answer.
- **Request logic** (`Aggregation`). Shared by both handler sets: the join, the class
  filter, the per-player work, all-or-nothing collection, and the three responses.
- **Routes and sequential handlers** (`Routes`). The route guards, and the handlers in
  `routes.swift`, which fetch players one after another in a loop.
- **Concurrent handlers** (`ApiClient`). The `APIHandler` handlers, which fetch players
  concurrently in a throwing task group.

### How effects are represented

- **Errors.** A thrown error is `Err(Abort(status))`, `Err(DecodingError)` or, when an
  outgoing GET throws before any response exists (a refused connection, a timeout),
  `Err(Transport)`. The GET route passes a transport error on; the POST routes answer it
  with 400, like every other thrown error. A Swift
  trap is `Err(Trap)`. Traps come from a force unwrap, a duplicate key in
  `Dictionary(uniqueKeysWithValues:)`, or advancing past the end of a string. The routes'
  `catch` never sees a trap.
- **The network.** It is an input. `Upstream` says what each GET answers, keyed by
  request URL (a response, or `NoResponse`), and whether the `X-Riot-Token` variable is set.
- **Task scheduling.** It is an input too. `completed` is the order in which the task
  group's tasks finish. It is any permutation of the per-player outcomes.

### Where the intended behaviour and the code differ (the model follows the code)

The backend's design says that a failed upstream call answers 500, that the POST routes
answer 400 only for a malformed body (and 500 for an unknown champion or a failed player),
that any status in 400–599 is a failure, and that a missing `X-Riot-Token` stops the
server at startup. The code differs as follows.

- **Upstream failure status.** A failed upstream call is rethrown with the upstream's own
  status (`Abort(response.status)`), not as 500.
  - On the GET route that status reaches the client.
  - The two POST routes catch every thrown error, their own `.internalServerError` for an
    unknown champion or an empty class included, and answer `.badRequest` (400). See
    `Routes.CompareRoutesAnswerBadRequest`.
- **Which statuses count as failures.** A status is rejected only if it is on the explicit
  list, not if it merely lies in 400–599. So 425, 499, 509 and 599 are accepted
  (`HttpStatus.UnlistedErrorCodesAreValid`).
- **Missing credential.** `configure.swift:11-14` stops the server at startup when the
  token is missing, as the design says. Only the fetch functions of `routes.swift`
  (lines 130-132, 155-157, 180-182) also check it on every request and throw
  `.internalServerError` (`RiotFetch.MissingTokenFailsGameCalls`). The `APIHandler`
  handlers get the token once, at startup (`configure.swift:15`), so
  `ApiClient.ChampionCompareHandler` and `ApiClient.ChampionClassCompareHandler` require
  it to be present.
- **Which routes file is wired.** `configure.swift:17` calls `routes(app, apiHandler:)`,
  a signature the `routes.swift` here (line 5) does not have. The model covers both
  handler sets: the sequential ones of `routes.swift` and the concurrent ones of
  `APIClient.swift`.

### Noted while modelling

- **Trailing apostrophe.** A champion name whose only apostrophe is its last character
  traps when its image name is computed (`ChampionsResponse.FormattedNameTrapsOnTrailingApostrophe`).
- **Concurrent result order and ties.** The concurrent handlers return the results in
  completion order. The class winner can therefore depend on scheduling when two players
  tie on total points (`ApiClient.TieDependsOnCompletionOrder`). It cannot when one player
  is strictly ahead (`ApiClient.ConcurrentWinnerMatchesSequential`).
- **Winner "N/A".** The winner is "N/A" exactly when there are no results, provided no
  player is literally named "N/A" (`ChampionClassCompareResponse.WinnerNotApplicableIffEmpty`).

## Model

All paths are relative to the repository root.

| member | source | states |
|---|---|---|
| Text.DigitsRoundTrip | Sources/App/Models/RiotAPI/ChampionsResponse.swift:111 | the decimal digits written for a natural number read back as that number |
| Text.ParseDescribe | Sources/App/Models/RiotAPI/ChampionsResponse.swift:95-111 | `Int64("\(n)")` gives back `n` for every 64-bit `n`, negative values included |
| Text.ParseRejectsNonDigit | Sources/App/Models/RiotAPI/ChampionsResponse.swift:96 | a key holding a non-digit character (other than a leading sign) does not parse |
| HttpStatus.ClientErrorsAreListed | Sources/App/Extensions/HTTPStatus+isValid.swift:12-41 | `isClientError` holds exactly for the 28 listed codes, all of them in 400–499 |
| HttpStatus.ServerErrorsAreListed | Sources/App/Extensions/HTTPStatus+isValid.swift:43-55 | `isServerError` holds exactly for the 11 listed codes, all of them in 500–599 |
| HttpStatus.ValidIsComplementOfLists | Sources/App/Extensions/HTTPStatus+isValid.swift:57-59 | `isValid` holds exactly off the two lists, and the lists are disjoint |
| HttpStatus.BelowFourHundredIsValid | Sources/App/Extensions/HTTPStatus+isValid.swift:57-59 | every status below 400 is valid |
| HttpStatus.UnlistedErrorCodesAreValid | Sources/App/Extensions/HTTPStatus+isValid.swift:12-59 | 425, 499, 509 and 599 are valid; 404, 429, 500 and 503 are not |
| Riot.ParseServerRegion | Sources/App/routes.swift:9 | a recognised region has exactly the given raw value |
| Riot.ParseRawValue | Sources/App/routes.swift:9 | every region's raw value is recognised as that region |
| Riot.RawValueInjective | Sources/App/routes.swift:9 | distinct regions have distinct raw values |
| Riot.ProfileIconIdRecoverable | Sources/App/Models/RiotAPI/SummonerDTO.swift:27-29 | the profile icon URL has the fixed prefix and suffix, and the icon id reads back from it |
| ChampionsResponse.DecodeChampion | Sources/App/Models/RiotAPI/ChampionsResponse.swift:91-105 | a decoded champion's key is a 64-bit integer |
| ChampionsResponse.ChampionRoundTrip | Sources/App/Models/RiotAPI/ChampionsResponse.swift:91-121 | decoding an encoded champion gives it back |
| ChampionsResponse.NonNumericKeyTraps | Sources/App/Models/RiotAPI/ChampionsResponse.swift:95-96 | a key that does not parse as `Int64` traps |
| ChampionsResponse.DecodeCatalog | Sources/App/Models/RiotAPI/ChampionsResponse.swift:26-35 | a decoded catalog stores every champion under its own key |
| ChampionsResponse.DecodeCatalogStoresByKey | Sources/App/Models/RiotAPI/ChampionsResponse.swift:31-34 | decoding succeeds iff every key parses and no two champions share a key; then each champion is under its key and the values are exactly the decoded champions |
| ChampionsResponse.DuplicateKeyTraps | Sources/App/Models/RiotAPI/ChampionsResponse.swift:32-34 | two entries whose keys parse to the same number ("1" and "01", say) trap |
| ChampionsResponse.EncodeCatalogWrites | Sources/App/Models/RiotAPI/ChampionsResponse.swift:37-46 | encoding succeeds iff no two champions share a name; it then copies the header fields and writes every champion, encoded, under its name and under nothing else |
| ChampionsResponse.CatalogRoundTrip | Sources/App/Models/RiotAPI/ChampionsResponse.swift:26-46 | a well-keyed catalog with unique names and 64-bit keys encodes, and decodes back to itself |
| ChampionsResponse.FirstIndexOf | Sources/App/Models/RiotAPI/ChampionsResponse.swift:63 | `firstIndex(of:)` is the first position holding the character, or none when it is absent |
| ChampionsResponse.FormattedNameWithoutApostrophe | Sources/App/Models/RiotAPI/ChampionsResponse.swift:72-74 | a name without apostrophe is its own image name |
| ChampionsResponse.FormattedNameShape | Sources/App/Models/RiotAPI/ChampionsResponse.swift:63-71 | the first apostrophe is removed and the character after it lower-cased; everything else is unchanged |
| ChampionsResponse.FormattedNameDropsOneApostrophe | Sources/App/Models/RiotAPI/ChampionsResponse.swift:63-71 | the image name holds exactly one apostrophe fewer |
| ChampionsResponse.FormattedNameTrapsOnTrailingApostrophe | Sources/App/Models/RiotAPI/ChampionsResponse.swift:64-65 | a name whose first apostrophe is its last character traps |
| ChampionsResponse.FormattedNameExample | Sources/App/Models/RiotAPI/ChampionsResponse.swift:62-75 | "Kai'Sa" gives "Kaisa"; "Ahri" is unchanged |
| ChampionMastery.TokensDisplay | Sources/App/Models/ChampionMastery.swift:41-52 | "N/A" exactly off levels 5 and 6; otherwise "/2" or "/3" after a count that reads back as the tokens earned |
| ChampionMastery.ImageURLsCarryName | Sources/App/Models/ChampionMastery.swift:54-60 | both URLs have their fixed prefix and contain the image name |
| ChampionMastery.JoinedRecord | Sources/App/Models/ChampionMastery.swift:25-39 | the record takes identity and tags from the champion and every progress field from the mastery, its token display is the level rule of `TokensDisplay`, and both URLs are the image and splash URLs of the image name; it traps exactly when the image name does |
| ChampionCompareResponse.MasteryInfoDropsOnlyIdentity | Sources/App/Models/ChampionCompareResponse.swift:61-70 | the projection drops exactly `puuid` and `summonerId`: adding them back restores the mastery |
| ChampionCompareResponse.SummonerInfoCopies | Sources/App/Models/ChampionCompareResponse.swift:35-39 | name and level are copied, and the icon URL names the icon id |
| ChampionCompareResponse.ChampionInfoOfCatalogEntry | Sources/App/Models/ChampionCompareResponse.swift:80-86 | the id is the champion's numeric key, name and tags are copied, and the URLs match the joined record's |
| ChampionClassCompareResponse.SumAppend | Sources/App/Models/ChampionClassCompareResponse.swift:44 | the points total of a concatenation is the sum of the totals |
| ChampionClassCompareResponse.LevelCountsBounded | Sources/App/Models/ChampionClassCompareResponse.swift:45-47 | the three level counts never exceed the number of masteries, and equal it when all levels are 5–7 |
| ChampionClassCompareResponse.SummaryBounds | Sources/App/Models/ChampionClassCompareResponse.swift:43-48 | an empty list summarises to zeros; the level counts are bounded by the list length |
| ChampionClassCompareResponse.SummaryMatchesListedMasteries | Sources/App/Models/ChampionClassCompareResponse.swift:30-34 | the listed masteries follow the input one for one; the summary's total is the sum of the listed points and its three level counts are the counts of the listed levels |
| ChampionClassCompareResponse.InsertKeepsOrder | Sources/App/Models/ChampionClassCompareResponse.swift:19-20 | inserting into a descending list keeps it descending, adds exactly that entry, and puts it first when it is not below the head |
| ChampionClassCompareResponse.SortIsPermutationInOrder | Sources/App/Models/ChampionClassCompareResponse.swift:19-20 | the sort is a permutation of the results in descending order of total points |
| ChampionClassCompareResponse.SortHeadIsFirstMaximal | Sources/App/Models/ChampionClassCompareResponse.swift:19-21 | the head of the sort is the first result with the greatest total |
| ChampionClassCompareResponse.WinnerIsFirstMaximal | Sources/App/Models/ChampionClassCompareResponse.swift:16-22 | the response keeps class and results; the winner is "N/A" for no results, otherwise the first result with the greatest total |
| ChampionClassCompareResponse.WinnerNotApplicableIffEmpty | Sources/App/Models/ChampionClassCompareResponse.swift:19-21 | when no player is named "N/A", the winner is "N/A" iff there are no results |
| ChampionClassCompareResponse.WinnerIndependentOfOrder | Sources/App/Models/ChampionClassCompareResponse.swift:19-21 | a strictly greatest total wins whatever the order of the results |
| ChampionClassCompareResponse.TieGoesToFirst | Sources/App/Models/ChampionClassCompareResponse.swift:19-21 | an example: with totals 100, 250 and 250 over `[a, b, c]`, the winner is `b`, the first of the two tied leaders (the general rule is `WinnerIsFirstMaximal`) |
| RiotFetch.BaseURLInjective | Sources/App/routes.swift:200-202 | distinct regions get distinct hosts |
| RiotFetch.SummonerURLInjective | Sources/App/routes.swift:133-134 | the summoner request URL determines the region and the exact name |
| RiotFetch.MasteriesURLInjective | Sources/App/routes.swift:158-159 | the masteries request URL determines the region and the exact `puuid` |
| RiotFetch.MasteryURLEndsWithId | Sources/App/routes.swift:183-184 | the single-mastery URL ends with the champion id, which reads back |
| RiotFetch.Checked | Sources/App/routes.swift:135-147 | a GET is accepted iff a response arrives, its status is valid and its body decodes |
| RiotFetch.CheckedSpec | Sources/App/routes.swift:135-147 | no response is a transport error; a rejected status is rethrown as that status; an undecodable body is a decoding error; otherwise the body is the result |
| RiotFetch.FetchChampions | Sources/App/routes.swift:204-212 | a fetched catalog stores every champion under its own key |
| RiotFetch.MissingTokenFailsGameCalls | Sources/App/routes.swift:127-132 | without the credential every game-API call fails with 500, whatever the network answers; the catalog call does not depend on it |
| RiotFetch.GameCallsCheckTheirAnswer | Sources/App/routes.swift:141-197 | with the credential, each of the three calls succeeds iff its own URL is answered with a valid status and a decodable body, and then returns that body; a rejected status is rethrown as that status; no answer is a transport error |
| Aggregation.JoinSpec | Sources/App/routes.swift:58-63 | the join succeeds iff every mastery finds its champion and its record can be built; then one record per mastery in order; otherwise it fails with the first failure's error (500 for a missing id, a trap for the image name) |
| Aggregation.KeepSubsetAppend | Sources/App/routes.swift:114-116 | filtering keeps order: a concatenation filters part by part |
| Aggregation.KeepSubsetCounts | Sources/App/routes.swift:114-116 | a mastery of the subset is kept as often as it occurs, and no other is kept |
| Aggregation.InClassSubsetById | Sources/App/routes.swift:99-116 | against a decoded catalog, a mastery is kept iff its champion id is in the catalog and that champion has the class tag |
| Aggregation.KeepSubsetExample | Sources/App/routes.swift:114-116 | allowed ids {1, 2, 3} against masteries 1, 4, 5 keep only mastery 1 |
| Aggregation.PerPlayerUsesResolvedIdentity | Sources/App/Controllers/APIClient.swift:102-130 | a player's result depends on the name only through the summoner it resolves to |
| Aggregation.PerPlayerFailsOnLookup | Sources/App/Controllers/APIClient.swift:106-108 | a failed summoner lookup fails the player with its error |
| Aggregation.CollectInOrderSpec | Sources/App/routes.swift:76-88 | collecting in order succeeds iff every outcome does, giving all values in order; otherwise it gives the first failure's error |
| Aggregation.ValuesPermutation | Sources/App/Controllers/APIClient.swift:58-61 | outcomes that are a permutation of each other have permuted values |
| Aggregation.CollectAnyOrder | Sources/App/Controllers/APIClient.swift:49-63 | in any completion order: success iff every player succeeds, then the same values as in input order; otherwise the error of some failed player |
| Aggregation.SummonerChampionMasteriesFailures | Sources/App/routes.swift:47-65 | a failed catalog, summoner or masteries fetch is rethrown as it came; once all three succeed, the listing succeeds iff every mastery joins |
| Aggregation.SummonerChampionMasteriesJoin | Sources/App/routes.swift:47-65 | a listing has one joined record per mastery, fetched by the resolved `puuid`, in order |
| Aggregation.ChampionCompareSpec | Sources/App/routes.swift:67-92 | unknown target gives 500; otherwise success iff every player succeeds and the info can be built, with one result per name in order and the info's id equal to the target; no names gives no results |
| Aggregation.ChampionClassCompareSpec | Sources/App/routes.swift:94-122 | an empty class gives 500; otherwise success iff every player succeeds, with one result per name in order, the class echoed and the winner chosen among them |
| Routes.EachInOrder | Sources/App/routes.swift:76-88 | the loop yields the in-order collection of the per-player outcomes and starts work exactly up to the first failure |
| Routes.ChampionCompareHandler | Sources/App/routes.swift:67-92 | the handler computes the single-champion comparison; no player is fetched when the catalog or the target is missing, players are fetched in order up to the first failure, and none for no names |
| Routes.ChampionClassCompareHandler | Sources/App/routes.swift:94-122 | the handler computes the class comparison; no player is fetched when the catalog fails or the class is empty, players are fetched in order up to the first failure, and none for no names |
| Routes.GuardsComeFirst | Sources/App/routes.swift:71-103 | a missing target or an empty class fails with 500 whatever the names |
| Routes.NoNamesNoResults | Sources/App/routes.swift:105-121 | no names: a class comparison over a non-empty class has no results and winner "N/A" |
| Routes.SummonerChampionMasteriesRouteSpec | Sources/App/routes.swift:7-17 | a missing or unknown region, or a missing name, is 400; a region's raw value and a name reach the handler |
| Routes.PostCompareChampion | Sources/App/routes.swift:20-30 | the route decodes the body, runs the handler and answers every thrown error with 400 |
| Routes.PostCompareChampionClass | Sources/App/routes.swift:32-42 | as above for the class comparison |
| Routes.CompareRoutesAnswerBadRequest | Sources/App/routes.swift:20-42 | a missing or undecodable body is 400; success iff the body decodes and the handler succeeds, with the same answer; every failure is 400 or a trap |
| ApiClient.CollectTaskGroup | Sources/App/Controllers/APIClient.swift:58-61 | `for try await` collects in completion order and stops at the first failure |
| ApiClient.ChampionCompareHandler | Sources/App/Controllers/APIClient.swift:41-67 | with the token set at startup: guards before any task; then success iff the sequential comparison succeeds, with the same info and a permutation of its results; a failure is a trap or some player's error |
| ApiClient.ChampionClassCompareHandler | Sources/App/Controllers/APIClient.swift:69-98 | with the token set at startup: guards before any task; then success iff the sequential comparison succeeds, with a permutation of its results and the winner chosen among them |
| ApiClient.ConcurrentWinnerMatchesSequential | Sources/App/Controllers/APIClient.swift:89-96 | with a strict leader, the concurrent and the sequential comparison name the same winner |
| ApiClient.TieDependsOnCompletionOrder | Sources/App/Controllers/APIClient.swift:89-96 | with a tie, the two completion orders name different winners |

`summonerChampionMasteriesHandler` in `Sources/App/Controllers/APIClient.swift:21-39` is
the same as the one in `routes.swift`. It is modelled once, as `Aggregation.SummonerChampionMasteries`.

## Left out

- **The HTTP exchange.** Headers, Vapor routing, request parameter extraction and JSON
  (de)coding are left out. The model takes as inputs what each URL answers, whether a body
  decodes, and whether the environment holds the token.
- **The `LOLAPIClient` package.** `APIHandler` holds a client from this package, which is
  not part of this model. Its calls are taken to behave like the fetch functions in
  `routes.swift`.
- **The `ServerRegion` enumeration.** It comes from the same package. It is modelled as
  the 16 platform routing values, with lower-case raw values.
- **`ChampionDTO.imageURL` and `splashImageURL`.** These are used by `ChampionInfo` but
  defined outside these files. They are modelled as the joined record's URL builders,
  applied to the formatted image name.
- **Unicode.** Strings are sequences of code points. `lowercased()` is modelled on ASCII
  letters only. Grapheme clusters and characters whose lower-case form is longer are not
  modelled.
- **URLs.** The model treats every `URL(string:)!` as never trapping and builds the URL by
  string concatenation. An image name keeps its spaces ("Miss Fortune"), and a Foundation
  whose `URL(string:)` rejects a space returns nil there, so the `!` at
  `ChampionMastery.swift:55` and `:59` traps for such a name; that trap is not modelled.
- **Unused champion fields.** The `info`, `image` and `stats` fields of a champion are not
  modelled: nothing in the core reads them.
- **Dates.** A `Date` is an integer count of milliseconds since the epoch.
- ChampionClassCompareResponse.SummaryOf: the 64-bit overflow trap of the points `reduce(0, +)` is not modelled, because integers are unbounded here.
- **Sort stability.** Ties in the winner sort are resolved as a stable sort resolves them
  (`ChampionClassCompareResponse.SortByTotalDescending`), which is what the documentation
  of Swift's `sorted(by:)` guarantees. Older Swift releases that sort without that
  guarantee could order tied players differently; the model does not cover them.
- **Task cancellation.** When a task fails, the task group cancels the other tasks; this
  is not modelled. A trap inside a task is modelled as that task's failure.
- **Fetches made by the concurrent handlers.** The `launched` trace lists the names
  whose tasks were added. It says nothing about fetches that a cancelled task had
  already made.
- **`configure.swift`.** Server setup (host name, middleware, building the client) is not
  modelled; its startup check of the token appears only as the `ApiClient` handlers'
  requirement that the token is present.
