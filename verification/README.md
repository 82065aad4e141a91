# Music recommender: a verified model of its core

This project models the core of a music recommender web application in
Dafny. Its server keeps a song catalogue in a document store. It enriches
songs from external music services, records periodic popularity snapshots
and serves personalised recommendations. Its React client shows song lists,
a song detail modal and an onboarding genre picker.

The model covers:

- **The recommendation route** (`Buckets`, `Blender`). Three candidate
  buckets are built: explicit genres, indirect preferences, and songs similar
  to saved favourites. They are blended 10/10/10 with a backfill from the
  leftovers up to 30 songs. A final dedup pass follows, and then the
  per-bucket statistics.
- **The user document** (`UserModel`, `Preferences`). This covers the
  `allPreferredGenres` virtual, the pre-save hook that recomputes
  `effectiveGenres`, and the two preference update routes.
- **Popularity snapshots and trends** (`Snapshots`, `Trending`). A snapshot
  scores each song by seven signals, each normalised by the catalogue
  maximum and weighted. The 24-hour and last-week trend routes compare two
  snapshots: the biggest movers first, then the top scorers, with a
  fallback to the most popular songs.
- **The iTunes matcher** (`Itunes`). This covers title and artist
  normalisation, candidate scoring, best-result picking with its threshold,
  the three-query search per region and the multi-region scan.
- **Song routes** (`SongRoutes`). These are paging, adding a favourite,
  single and batch enrichment, and view counting.
- **External clients** (`Spotify`, `Youtube`). The Spotify client has a
  token cache and normalises tracks. The YouTube client maps statistics and
  tallies comment sentiment.
- **Client components** (`SongModal`, `GenreSelection`, `SongList`).
  `SongModal` holds the formatting helpers, the mood detection and the
  recommendations tab. `GenreSelection` is the toggle, submit and skip
  logic. `SongList` covers its favourites loading, delete and add.

Store queries are filters over sequences of songs. External services are
function parameters or input values; a `None` reply stands for a request
that threw. Clocks are integer inputs. Objects whose fields the source
updates in place are classes: the Spotify token cache, a song document
being enriched, and the three React components' state. Their methods are
proved against the pure functions that specify them.

## Model

| member | source | states |
|---|---|---|
| Common.ToLower | server/src/utils/itunesApi.js:14 | same length; every character mapped by ASCII lower-casing |
| Common.Trim | server/src/routes/users.js:114 | no longer than the input; the result neither starts nor ends with JavaScript white space |
| Common.TrimIsInfix | server/src/routes/users.js:127 | the trimmed string is the contiguous middle of the input, and everything cut on either side is white space |
| Common.Take | server/src/routes/users.js:122 | `limit(n)` / `slice(0, n)`: length is min(len, n) and the result is a prefix |
| UserModel.Dedup | server/src/models/User.js:68 | `[...new Set(xs)]`: no duplicates; holds exactly the elements of xs not already seen |
| UserModel.DedupAppend | server/src/models/User.js:68 | dedup of a concatenation is dedup of the first part followed by dedup of the second minus what the first used |
| UserModel.DedupOfDistinct | server/src/models/User.js:68 | a duplicate-free list with nothing seen is its own dedup |
| UserModel.AllPreferredGenres | server/src/models/User.js:65-69 | duplicate-free; holds a genre iff it is preferred or detected (missing arrays read as empty) |
| UserModel.EffectiveGenres | server/src/models/User.js:73-79 | duplicate-free; holds a genre iff it is preferred or among the first three detected |
| UserModel.PreSave | server/src/models/User.js:73-79 | the hook sets `effectiveGenres` to the effective genres and changes no other field |
| UserModel.EffectivePreferredFirst | server/src/models/User.js:78 | the effective list starts with the deduplicated preferred genres, and every later entry is an unpreferred genre among the first three detected |
| UserModel.LateDetectedIgnored | server/src/models/User.js:78 | a detected genre past the third that is not preferred never becomes effective |
| UserModel.EffectiveWithinAllPreferred | server/src/models/User.js:65-79 | every effective genre is in the combined preferred list |
| UserModel.PreSaveIdempotent | server/src/models/User.js:73-79 | saving twice gives the same document as saving once |
| UserModel.MissingArraysEmpty | server/src/models/User.js:66-67 | with both arrays missing, both genre lists are empty |
| Preferences.SavePreferences | server/src/routes/users.js:29-56 | 404 iff the user is missing; otherwise genres and moods are set (missing ones become []), onboarding is completed, and the other fields are kept |
| Preferences.PatchPreferences | server/src/routes/users.js:61-79 | 404 iff the user is missing; the returned user is the stored one with only the supplied genre and mood lists replaced, so detected genres and artists, onboarding flag and effective genres are kept |
| Preferences.EmptyPatchIsIdentity | server/src/routes/users.js:65-69 | a patch with neither field returns the user unchanged |
| Preferences.SavedGenreNotEffective | server/src/routes/users.js:33-41 | for every user and every saved genre missing from the stored `effectiveGenres`, the saved document still lacks it there, though the save hook's computation would include it |
| Preferences.SavedGenresNotEffective | server/src/routes/users.js:33-41 | an update that bypasses the save hook leaves `effectiveGenres` stale: a saved genre is absent from the stored list though the hook would include it |
| Buckets.IdsAppend | server/src/routes/users.js:101 | the id set of a concatenation is the union of the id sets |
| Buckets.Clean | server/src/routes/users.js:114 | the cleaned list holds no empty string and is no longer than the input |
| Buckets.CleanMembers | server/src/routes/users.js:114 | every non-blank entry appears trimmed, and every kept entry is the trim of an input entry |
| Buckets.CleanAppend | server/src/routes/users.js:114 | cleaning works entry by entry: the cleaned concatenation is the concatenation of the cleaned parts, in order |
| Buckets.CleanDropsBlank | server/src/routes/users.js:127 | a blank entry anywhere in the list does not change the cleaned list |
| Buckets.Filter | server/src/routes/users.js:120 | a query filter keeps exactly the songs satisfying the predicate |
| Buckets.FilterAppend | server/src/routes/users.js:172 | filtering distributes over concatenation |
| Buckets.SongsByGenres | server/src/routes/users.js:126-143 | at most `limit` songs from the catalogue; none without a cleaned genre. All are genre matches, or the genre query was empty and all are tag matches; the answer holds min(`limit`, number of genre matches) songs, or min(`limit`, number of tag matches) when no song matches by genre |
| Buckets.SongsByArtists | server/src/routes/users.js:113-123 | at most `limit` catalogue songs, each with an artist matching a cleaned name; none without names; otherwise min(`limit`, number of matching songs) |
| Buckets.NotFavorite | server/src/routes/users.js:152 | keeps exactly the songs whose id is not a favourite |
| Buckets.Tag | server/src/routes/users.js:153 | one candidate per song, in order, with the bucket's type |
| Buckets.TagCovers | server/src/routes/users.js:153 | every song of the list appears as a candidate of the bucket's type |
| Buckets.FirstById | server/src/routes/users.js:174-183 | keeps only unseen songs and no duplicate ids, and every unseen id is represented |
| Buckets.FirstByIdAppend | server/src/routes/users.js:174-183 | on a concatenation, the second part is filtered against the ids the first part used |
| Buckets.ExplicitCandidates | server/src/routes/users.js:145-154 | at most 80 explicit, non-favourite catalogue songs; none when no genre survives cleaning; every non-favourite song of the genre query appears as an explicit candidate, every candidate comes from that query, and the bucket is the query's non-favourite songs in query order, tagged explicit |
| Buckets.MergeIndirect | server/src/routes/users.js:172-187 | indirect, non-favourite songs from either query, with distinct ids |
| Buckets.IndirectCandidates | server/src/routes/users.js:156-187 | indirect, non-favourite catalogue songs with distinct ids |
| Buckets.TagAppend | server/src/routes/users.js:184-187 | tagging distributes over concatenation |
| Buckets.MergeIndirectSplit | server/src/routes/users.js:171-187 | the merged bucket is the artist part followed by the genre part, whose ids the artist part has not used |
| Buckets.IndirectArtistsFirst | server/src/routes/users.js:171-187 | artist matches come first; a genre match survives only when no artist match shares its id; every non-favourite id of either query appears |
| Buckets.MergeCovers | server/src/routes/users.js:176-183 | any non-favourite song of either query has its id in the merged bucket |
| Buckets.BlankGenreIgnored | server/src/routes/users.js:127 | adding a blank genre does not change the genre query |
| Buckets.FindOne | server/src/routes/users.js:208-211 | a hit is a stored song whose title and artist contain the track's (case-insensitive); none means no stored song matches |
| Buckets.TrackRecs | server/src/routes/users.js:207-221 | only similar-saved, non-favourite catalogue songs based on the favourite's title, at most one per track; every track with a non-favourite local match yields that match with the track's match value |
| Buckets.TrackRecsAppend | server/src/routes/users.js:207-221 | the recommendations of a track list are those of its parts in track order, so with the one-track case they are fixed exactly |
| Buckets.TrackRecsSound | server/src/routes/users.js:207-221 | every recommendation is the local match of one of the tracks and carries that track's match value |
| Buckets.FavoriteRecs | server/src/routes/users.js:198-226 | a missing song or a failing provider contributes nothing; otherwise every similar track with a non-favourite local match contributes it; results are similar-saved, non-favourite catalogue songs |
| Buckets.SimilarFrom | server/src/routes/users.js:197-227 | only similar-saved, non-favourite catalogue songs, and every favourite's contribution is included |
| Buckets.FavoriteRecsSound | server/src/routes/users.js:198-226 | every contribution of a favourite needs its song and a provider answer, is based on the favourite's title, and is the local match of one of its similar tracks with that track's match value |
| Buckets.SimilarFromAppend | server/src/routes/users.js:197-227 | the bucket is the favourites' contributions concatenated in favourite order |
| Buckets.LookupTracks | server/src/routes/users.js:207-221 | the inner loop returns exactly the track recommendations |
| Buckets.SimilarCandidates | server/src/routes/users.js:191-231 | the loop over the first five favourites returns exactly `SimilarFrom` of them; all similar-saved and non-favourite |
| Blender.Pick | server/src/routes/users.js:234-247 | takes nothing for n <= 0, otherwise at most n and at most the bucket's length |
| Blender.PickSound | server/src/routes/users.js:236-244 | every pick comes from the bucket, is not skipped (blank, favourite or seen), and the picks have distinct ids |
| Blender.PickCovers | server/src/routes/users.js:236-244 | every passed-over entry is skipped given the final seen set; a short pick skipped the entire bucket |
| Blender.PickIsTakeOfFresh | server/src/routes/users.js:234-247 | the picks are exactly the first n entries of the reference list: the first usable occurrence of each id (non-blank, not a favourite, not seen), in bucket order |
| Blender.FreshUsableIgnores | server/src/routes/users.js:236-244 | also excluding an id that is blank, a favourite or already excluded does not change the reference list |
| Blender.PickFull | server/src/routes/users.js:234-247 | with at least n usable ids, exactly n are taken |
| Blender.IdsCard | server/src/routes/users.js:241-243 | distinct ids mean the id set is as large as the list |
| Blender.TakeFromBucket | server/src/routes/users.js:234-247 | the loop appends exactly `Pick` to `out`, adds its ids to `seen` and returns its length |
| Blender.First | server/src/routes/users.js:252-254 | each bucket's first pass takes at most 10, and no more than the bucket holds |
| Blender.TakeFirstPass | server/src/routes/users.js:249-254 | the three calls give the first pass's songs, seen set and counts |
| Blender.Blend | server/src/routes/users.js:249-263 | the first pass plus the leftover backfill equals the blended list |
| Blender.FirstSound | server/src/routes/users.js:252-254 | the first pass has distinct ids equal to the seen set, all from the buckets and none skipped |
| Blender.LeftoversFromBuckets | server/src/routes/users.js:257-261 | the leftovers come from the buckets |
| Blender.BackfillSound | server/src/routes/users.js:263 | the backfill has distinct, unseen, bucket songs and fits the remaining room |
| Blender.BlendedSafe | server/src/routes/users.js:249-263 | at most 30 songs with distinct, non-blank ids, none a favourite, all from the buckets |
| Blender.Blended | server/src/routes/users.js:249-263 | the first pass leads the blended list |
| Blender.FirstCovers | server/src/routes/users.js:252-254 | every entry a first pass passed over is skipped by its final seen set |
| Blender.InFirstOrLeftover | server/src/routes/users.js:252-261 | any bucket entry is skipped or reaches the leftovers |
| Blender.ShortBackfillSkipsAll | server/src/routes/users.js:263 | a backfill that falls short has skipped every bucket entry |
| Blender.ShortBackfillCovers | server/src/routes/users.js:249-263 | when the backfill falls short, every eligible id is recommended |
| Blender.LengthFromIds | server/src/routes/users.js:263 | a duplicate-free list of eligible ids that is full or covers them all has length min(30, eligible) |
| Blender.BlendedLength | server/src/routes/users.js:249-263 | the blend holds exactly min(30, number of eligible ids) songs |
| Blender.CountType | server/src/routes/users.js:281-283 | a per-type count never exceeds the length |
| Blender.BlendedAllocation | server/src/routes/users.js:107-109 | with disjoint, well-typed buckets each holding at least 10 usable songs, the blend is 30 songs, exactly 10 per type |
| Blender.CountBuckets | server/src/routes/users.js:281-283 | counts of three single-type parts are the parts' lengths |
| Blender.CountAppend | server/src/routes/users.js:281-283 | counting distributes over concatenation |
| Blender.CountAll | server/src/routes/users.js:281-283 | a single-type list counts fully for its type |
| Blender.CountNone | server/src/routes/users.js:281-283 | a list without a type counts zero for it |
| Blender.CountPartition | server/src/routes/users.js:279-284 | the three type counts add up to the length |
| Blender.Unique | server/src/routes/users.js:268-277 | no longer than its input |
| Blender.UniqueSound | server/src/routes/users.js:268-277 | keeps only unseen, non-favourite songs from the input, with distinct ids |
| Blender.DistinctTail | server/src/routes/users.js:271-277 | the tail of a duplicate-free list is duplicate-free and lacks the head's id |
| Blender.UniqueKeepsClean | server/src/routes/users.js:267-277 | the safety dedup leaves a clean blend unchanged |
| Blender.FinalDedup | server/src/routes/users.js:268-277 | the loop returns exactly `Unique` of its input |
| Blender.StatsOf | server/src/routes/users.js:279-284 | total is the length and the three bucket counts add up to it |
| Blender.GetRecommendations | server/src/routes/users.js:84-300 | 404 iff the user is missing; otherwise the response is the composed recommendation |
| Blender.RecommendationsSound | server/src/routes/users.js:84-300 | the response lists the blend: no favourites, distinct ids, min(30, eligible) songs, consistent stats |
| Blender.Recommendations | server/src/routes/users.js:285-293 | at most 30 recommendations, and the echoed favourite count is the number of favourites |
| Snapshots.LargestIsMaximum | server/src/utils/songsnapshot.js:17-23 | no value iff no song has the signal; otherwise it is some song's value and no song's value exceeds it |
| Snapshots.MaxOf | server/src/utils/songsnapshot.js:17-23 | never zero |
| Snapshots.MaxOfFallback | server/src/utils/songsnapshot.js:17-23 | the largest value when it exists and is non-zero, else 1 |
| Snapshots.MaximaOf | server/src/utils/songsnapshot.js:17-23 | the seven maxima, none zero |
| Snapshots.WeightsSumToOne | server/src/utils/songsnapshot.js:34-42 | the weights 0.3, 0.2 and five times 0.1 sum to 1 |
| Snapshots.PartBounds | server/src/utils/songsnapshot.js:44-50 | each normalised signal of a catalogue song lies in [0, 1] |
| Snapshots.ScoreInUnit | server/src/utils/songsnapshot.js:44-50 | every score lies in [0, 1] for non-negative signals |
| Snapshots.ScoreAtMaxima | server/src/utils/songsnapshot.js:44-50 | a song at every maximum scores exactly 1 |
| Snapshots.Score | server/src/utils/songsnapshot.js:26-50 | a song with no signals scores 0 |
| Snapshots.Records | server/src/utils/songsnapshot.js:24-60 | one record per song, in order |
| Snapshots.CreateSnapshot | server/src/utils/songsnapshot.js:14-69 | writes records in catalogue order and stops at the first failing write; the written prefix is exactly the records of those songs |
| Snapshots.RecordsShareId | server/src/utils/songsnapshot.js:51-57 | every record carries the run's snapshot id, its song's id and its song's counter |
| Trending.Insert | server/src/routes/popular.js:48 | insertion is a permutation adding x |
| Trending.SortDesc | server/src/routes/popular.js:48 | the sort is a permutation |
| Trending.InsertSorted | server/src/routes/popular.js:48 | insertion keeps a descending list descending |
| Trending.SortDescSorted | server/src/routes/popular.js:48 | the sort's output is descending |
| Trending.InsertStable | server/src/routes/popular.js:60 | insertion keeps the relative order of equal keys |
| Trending.SortDescStable | server/src/routes/popular.js:60 | the sort is stable, as `Array.prototype.sort` is |
| Trending.PrevScore | server/src/routes/popular.js:24-26 | none iff the previous snapshot lacks the song; else the last such record's score |
| Trending.Changes | server/src/routes/popular.js:28-40 | at most one change per latest record |
| Trending.ChangesSound | server/src/routes/popular.js:28-40 | each change is current minus previous for a song in both snapshots |
| Trending.ChangesComplete | server/src/routes/popular.js:28-40 | every latest song with a previous score has its change |
| Trending.ScoreRows | server/src/routes/popular.js:50-53 | one row per record with its id and score |
| Trending.NotIn | server/src/routes/popular.js:67 | keeps exactly the changes whose id is not excluded |
| Trending.PopularRows | server/src/routes/popular.js:47-53 | holds min(n, 10) rows |
| Trending.TopDelta | server/src/routes/popular.js:59-61 | holds min(n, 5) changes |
| Trending.TopScore | server/src/routes/popular.js:66-69 | holds min(5, number of changes whose id is not among the movers) |
| Trending.TakeSorted | server/src/routes/popular.js:49 | a prefix of a descending list is descending |
| Trending.PopularRowsSorted | server/src/routes/popular.js:45-56 | the fallback rows descend by score and come from the latest snapshot |
| Trending.PopularRowsTop | server/src/routes/popular.js:47-49 | no song left out of the fallback scores above its last row |
| Trending.TopDeltaTop | server/src/routes/popular.js:59-61 | the movers descend by absolute delta, and no change left out moved more |
| Trending.TopScoreApart | server/src/routes/popular.js:63-69 | the top scorers descend by score and share no id with the movers |
| Trending.TopScoreTop | server/src/routes/popular.js:66-69 | no change outside the movers that is left out has a better current score than a listed one |
| Trending.TrendBetween | server/src/routes/popular.js:43-71 | the comparison always answers; it is the popular fallback iff every delta is zero |
| Trending.TrendBetweenBounded | server/src/routes/popular.js:43-71 | the fallback occurs iff every delta is zero, has at most 10 rows; movers plus scorers are at most 10 with disjoint ids |
| Trending.Pass | server/src/routes/popular.js:19-22 | keeps exactly the records of one snapshot |
| Trending.Trend24h | server/src/routes/popular.js:6-78 | 400 iff fewer than two snapshots; otherwise compares the newest with the one before |
| Trending.TrendLastWeek | server/src/routes/popular.js:80-152 | 400 iff fewer than seven snapshots; otherwise compares the seventh id with the first |
| Trending.LastWeekIgnoresNewer | server/src/routes/popular.js:84 | snapshots after the seventh never change the last-week answer |
| Trending.TrendLastWeekLatest | server/src/routes/popular.js:84-91 | compares the newest snapshot with the one six before it |
| Trending.LastWeekLatestFollowsNewest | server/src/routes/popular.js:84-91 | a new snapshot becomes the compared latest one |
| Itunes.StripGroups | server/src/utils/itunesApi.js:15-16 | removing bracketed groups introduces no upper case |
| Itunes.CloseAtIs | server/src/utils/itunesApi.js:15-16 | the lazy `.*?` stops at the first closing bracket when no line terminator comes before it |
| Itunes.GroupAtIs | server/src/utils/itunesApi.js:15-16 | a match spans the leading white space, the opening bracket, the text up to the first closing bracket and the white space after it |
| Itunes.StripGroupsAt | server/src/utils/itunesApi.js:15-16 | a match at the start is replaced by a single space and the replacement goes on after it |
| Itunes.StripGroupsNoOpen | server/src/utils/itunesApi.js:15-16 | a string without the opening bracket comes back unchanged |
| Itunes.StripGroupsSkip | server/src/utils/itunesApi.js:15-16 | a prefix without the opening bracket that does not end in white space is kept, and the replacement goes on after it |
| Itunes.StripGroupsGroup | server/src/utils/itunesApi.js:15-16 | a group with no line terminator before its first closing bracket becomes one space, together with the white space on both sides of it |
| Itunes.CutDashTail | server/src/utils/itunesApi.js:17 | cutting at " - " introduces no upper case |
| Itunes.CutDashTailNoDash | server/src/utils/itunesApi.js:17 | a string without a dash comes back unchanged |
| Itunes.CutDashTailCuts | server/src/utils/itunesApi.js:17 | for a one-line tail after the first dash followed by white space, the text before the dash without its trailing white space is kept, followed by one space |
| Itunes.DropFeat | server/src/utils/itunesApi.js:18 | removing "feat"/"ft" words introduces no upper case |
| Itunes.DropFeatNoWord | server/src/utils/itunesApi.js:18 | a string in which no "feat" or "ft" starts a word comes back unchanged |
| Itunes.DropFeatWord | server/src/utils/itunesApi.js:18 | "feat" or "ft" in any case, at a word start and followed by neither a word character nor a dot, becomes one space |
| Itunes.SpellAnd | server/src/utils/itunesApi.js:19 | no '&' remains |
| Itunes.SpellAndAppend | server/src/utils/itunesApi.js:19 | the replacement works piece by piece: the result for a concatenation is the concatenation of the results |
| Itunes.SpellAndChar | server/src/utils/itunesApi.js:19 | '&' becomes " and " and every other character is kept, so with the append lemma the whole output is fixed |
| Itunes.BlankSymbols | server/src/utils/itunesApi.js:20 | each character is kept when alphanumeric or space, else blanked |
| Itunes.CollapseSpaces | server/src/utils/itunesApi.js:21 | every white-space run becomes one space: no two spaces in a row, no other white space left, and the non-white-space characters kept in order |
| Itunes.CollapseChar | server/src/utils/itunesApi.js:21 | a character other than white space is kept as it is |
| Itunes.CollapseRun | server/src/utils/itunesApi.js:21 | a whole run of white space becomes one space |
| Itunes.CollapseAppend | server/src/utils/itunesApi.js:21 | collapsing distributes over a cut that no white-space run straddles, so with the two base cases the output is fixed: each maximal run becomes one space, every other character stays, in order |
| Itunes.CollapsedChars | server/src/utils/itunesApi.js:14-21 | after collapsing, only lower-case letters, digits and single spaces remain |
| Itunes.Norm | server/src/utils/itunesApi.js:12-23 | `norm` yields lower-case alphanumerics separated by single spaces, with no leading or trailing space |
| Itunes.NormIgnoresCase | server/src/utils/itunesApi.js:14 | lower-casing first does not change `norm` |
| Itunes.ScoreCandidate | server/src/utils/itunesApi.js:25-45 | at most 200; exactly 200 iff both normalised fields are equal; 60 or more means a title overlap or an equal artist |
| Itunes.ScoreParts | server/src/utils/itunesApi.js:25-45 | the title part is 100/60/0, the artist part 80/40/0, each positive iff it overlaps; the 20 bonus iff both overlap |
| Itunes.Scores | server/src/utils/itunesApi.js:57 | each result's score |
| Itunes.FirstMax | server/src/utils/itunesApi.js:56-62 | an index into the scores |
| Itunes.FirstMaxIsFirstMaximum | server/src/utils/itunesApi.js:58 | the index holds the maximum and is its first occurrence |
| Itunes.PickBySound | server/src/utils/itunesApi.js:53-67 | a pick is the first maximum and scores at least 60; no pick means every score is below 60 |
| Itunes.PickBy | server/src/utils/itunesApi.js:53-67 | a pick is one of the hits |
| Itunes.PickBest | server/src/utils/itunesApi.js:47-68 | a pick is one of the results; no pick from a missing or empty list |
| Itunes.ScanBest | server/src/utils/itunesApi.js:53-62 | the loop ends with the first maximum and its score, or -1 with no results |
| Itunes.PickBestResult | server/src/utils/itunesApi.js:47-68 | the method returns the specified pick |
| Itunes.PickBestSound | server/src/utils/itunesApi.js:47-68 | the pick is the first best-scoring result at or above 60; nothing means all score below 60 |
| Itunes.PickMatchesTitleOrArtist | server/src/utils/itunesApi.js:31-65 | a picked result overlaps the title or has exactly the artist |
| Itunes.ReplaceFirst | server/src/utils/itunesApi.js:142 | with no occurrence the string is unchanged |
| Itunes.ReplaceFirstAt | server/src/utils/itunesApi.js:142 | when the pattern first occurs at i, exactly that occurrence is replaced |
| Itunes.MatchOf | server/src/utils/itunesApi.js:136-151 | carries the region, the query and the track id; artwork present iff the hit had a non-empty one |
| Itunes.Queries | server/src/utils/itunesApi.js:123-127 | exactly three queries |
| Itunes.Picks | server/src/utils/itunesApi.js:129-134 | each query's best pick |
| Itunes.FirstPick | server/src/utils/itunesApi.js:129-155 | a match carries the searched region |
| Itunes.FirstPickIsFirst | server/src/utils/itunesApi.js:129-155 | none iff no query picks; otherwise the first picking query's match |
| Itunes.SearchTrack | server/src/utils/itunesApi.js:122-156 | a match carries the searched region |
| Itunes.SearchItunesTrack | server/src/utils/itunesApi.js:122-156 | the loop returns the specified search |
| Itunes.Lookups | server/src/utils/itunesApi.js:160-164 | one search per region, in order US, GB, DE, HR, JP |
| Itunes.ScanFromSound | server/src/utils/itunesApi.js:162-169 | keeps what was found, adds only real hits, stops at two; short only when every region was tried |
| Itunes.ScanFrom | server/src/utils/itunesApi.js:162-169 | the scan only appends to what was found |
| Itunes.ScanFromTakes | server/src/utils/itunesApi.js:162-169 | the scan returns the first matches in country order, as many as are missing up to two |
| Itunes.GetMultiRegionData | server/src/utils/itunesApi.js:158-171 | the loop returns the specified scan, at most two matches |
| SongRoutes.OrDefault | server/src/routes/songs.js:47-48 | `parseInt(x) \|\| d`: the value unless missing or zero |
| SongRoutes.ReadPaging | server/src/routes/songs.js:47-49 | page and limit default to 1 and 50 when missing or zero; skip is (page-1)*limit |
| SongRoutes.CeilDiv | server/src/routes/songs.js:64 | `Math.ceil(a / b)` brackets a between consecutive multiples of b |
| SongRoutes.PageOf | server/src/routes/songs.js:51-54 | negative skip is an error; else the contiguous window of the ranked list at skip |
| SongRoutes.PageSpan | server/src/routes/songs.js:64 | a page starts inside the catalogue iff its number is at most `pages` |
| SongRoutes.PagesAreNonEmptyPages | server/src/routes/songs.js:45-70 | a page is non-empty iff its number is at most `pages`, and each earlier page is full |
| SongRoutes.AddFavorite | server/src/routes/songs.js:72-95 | 404 for an unknown song, 400 for a duplicate pair; otherwise the row is added |
| SongRoutes.AddFavoriteTwice | server/src/models/Favorite.js:9 | adding the same favourite twice fails the second time and stores it once |
| SongRoutes.LastfmOf | server/src/routes/songs.js:172-178 | the Last.fm block with 0, [] and null defaults, always carrying the similar tracks |
| SongRoutes.Merged | server/src/routes/songs.js:150-180 | field by field: Deezer fields when present (preview and cover only when truthy), iTunes when non-empty, Last.fm when either part is present |
| SongRoutes.MergedIdempotent | server/src/routes/songs.js:150-180 | enriching twice with the same data equals enriching once |
| SongRoutes.SongRecord.Enrich | server/src/routes/songs.js:148-187 | the fields become the merge; updated iff there was data; no data leaves the record unchanged |
| SongRoutes.SongRecord.ApplyDeezer | server/src/routes/songs.js:151-162 | applies the Deezer block, or nothing without it |
| SongRoutes.SongRecord.ApplyItunes | server/src/routes/songs.js:165-168 | applies the iTunes data, or nothing when empty |
| SongRoutes.SongRecord.ApplyLastfm | server/src/routes/songs.js:171-180 | applies the Last.fm block, or nothing without data |
| SongRoutes.SongRecord.RecordView | server/src/routes/songs.js:398-399 | the count becomes the old count (or 0) plus one, with the time; nothing else changes |
| SongRoutes.EnrichSong | server/src/routes/songs.js:132-204 | 404 without a song; no-data leaves it unchanged; otherwise merged, reporting which sources contributed; the view count and last-viewed time are never touched |
| SongRoutes.EnrichedCount | server/src/routes/songs.js:218-278 | never more than the songs |
| SongRoutes.EnrichedCountBounds | server/src/routes/songs.js:218-278 | zero when nothing has data; all when everything has |
| SongRoutes.EnrichAll | server/src/routes/songs.js:207-284 | each song is merged with its fetch, or kept on failure; enriched plus failed is the batch size; no song's view count or last-viewed time changes |
| SongRoutes.ViewSong | server/src/routes/songs.js:389-415 | 404 without a song; otherwise the incremented count, the last-viewed time set to now, and every other field unchanged |
| Spotify.NextToken | server/src/services/spotify.js:9-42 | a valid cache is reused with no request; missing credentials fail; a request is made iff neither; a reply is stored to expire 300 s early; a failed request fails and leaves the cache as it was |
| Spotify.ReusedUntilEarlyExpiry | server/src/services/spotify.js:11-36 | a refreshed token is reused, with no request, until 300 s before its expiry |
| Spotify.RenewedAtEarlyExpiry | server/src/services/spotify.js:11-36 | from 300 s before expiry on, a call with credentials requests a new token |
| Spotify.TokenCache.constructor | server/src/services/spotify.js:3-4 | the cache starts empty with expiry 0 |
| Spotify.TokenCache.GetAccessToken | server/src/services/spotify.js:9-42 | cache, token and request flag follow `NextToken` |
| Spotify.TokenCache.SearchTracks | server/src/services/spotify.js:50-83 | an empty query returns [] without a token call; any failure returns []; otherwise the normalised hits |
| Spotify.TokenCache.GetTrackById | server/src/services/spotify.js:89-115 | the normalised track, or nothing on any failure |
| Spotify.Join | server/src/services/spotify.js:71-73 | empty for no names; starts with the first name; length is the names plus separators |
| Spotify.JoinAppend | server/src/services/spotify.js:71-73 | joining two non-empty lists is joining each and putting one separator between them, which fixes the contents of every join |
| Spotify.NormalizeTrack | server/src/services/spotify.js:67-78 | source "spotify", the id and name, the joined artists, and the first image url only when truthy |
| Spotify.Normalized | server/src/services/spotify.js:67-78 | one track per hit, in order |
| Spotify.JoinExamples | server/src/services/spotify.js:71 | one artist passes through; two are joined with ", " |
| Youtube.GetVideoStats | server/src/utils/youtubeApi.js:34-51 | null iff no item or no statistics; otherwise each count, or 0 when missing |
| Youtube.CountLabel | server/src/utils/youtubeApi.js:78-85 | never more than the comments |
| Youtube.CountOther | server/src/utils/youtubeApi.js:78-85 | never more than the comments |
| Youtube.CountsPartition | server/src/utils/youtubeApi.js:78-85 | positive, negative and neutral counts add up to the comment count |
| Youtube.ScoreInRange | server/src/utils/youtubeApi.js:87-88 | 1 when all counted comments are positive, -1 when all are negative |
| Youtube.SentimentScore | server/src/utils/youtubeApi.js:87-88 | the score lies in [-1, 1] |
| Youtube.AnalyzeSentiment | server/src/utils/youtubeApi.js:73-96 | the loop's counters are the label counts, summing to the comment count; score in [-1, 1] |
| Youtube.NoCommentsScoresZero | server/src/utils/youtubeApi.js:87 | no comments give zero counts and score 0 |
| Youtube.OtherLabelsAreNeutral | server/src/utils/youtubeApi.js:80-84 | switching between non-POSITIVE/NEGATIVE labels changes no count |
| SongModal.Decimal | client/src/components/SongModal.js:81 | non-empty digits with no leading zero; one digit iff n < 10 |
| SongModal.DecimalRoundTrip | client/src/components/SongModal.js:81 | reading the digits back gives n |
| SongModal.PadTwo | client/src/components/SongModal.js:82 | `padStart(2, '0')`: two-character strings unchanged; shorter ones zero-padded to two |
| SongModal.FormatDurationRoundTrip | client/src/components/SongModal.js:79-83 | parsing the text gives back the seconds |
| SongModal.FormatDuration | client/src/components/SongModal.js:79-83 | the text has the "m:ss" shape: digits, a colon, two digits |
| SongModal.FormatNumber | client/src/components/SongModal.js:45-52 | zero/plain/thousands/millions exactly by the number's range |
| SongModal.FormatNumberScales | client/src/components/SongModal.js:48-51 | the scaled value times 1000 or 1000000 is the number, and a scaled value is at least 1 |
| SongModal.FirstMood | client/src/components/SongModal.js:62-66 | the first mood in table order that the lower-cased tag contains |
| SongModal.FirstMatchingTag | client/src/components/SongModal.js:61-67 | the first tag containing any mood |
| SongModal.MoodIsFirstMatch | client/src/components/SongModal.js:54-70 | null iff no tags or no match; else the first tag's first mood label |
| SongModal.MoodFromTags | client/src/components/SongModal.js:54-70 | a mood is always one of the table's labels |
| SongModal.MoodIgnoresTagCase | client/src/components/SongModal.js:62 | a tag's case does not change the mood test |
| SongModal.SearchedRegionsHaveOwnFlags | client/src/components/SongModal.js:72-77 | each searched region has its own flag, not the globe |
| SongModal.CountryFlag | client/src/components/SongModal.js:72-77 | the globe shows iff the code has no flag of its own |
| SongModal.OtherCodesShowGlobe | client/src/components/SongModal.js:72-77 | a country code outside the five with a flag shows the globe |
| SongModal.BestCover | client/src/components/SongModal.js:91-93 | truthy iTunes artwork first, then a truthy YouTube thumbnail, otherwise the stored cover |
| SongModal.RecsPanel.constructor | client/src/components/SongModal.js:5-9 | starts on the overview tab with nothing loaded |
| SongModal.RecsPanel.Load | client/src/components/SongModal.js:11-18 | requests iff nothing is loaded; otherwise only switches tab |
| SongModal.RecsPanel.Settle | client/src/components/SongModal.js:20-40 | ends loading on the recommendations tab; an error keeps the list, an empty answer clears it, a non-empty one is shown |
| SongModal.SettledStatus | client/src/components/SongModal.js:24-37 | never idle or loading; error iff the request failed; loaded iff the answer is non-empty |
| GenreSelection.Without | client/src/components/GenreSelection.js:35 | the genre is gone; every other genre kept with its multiplicity |
| GenreSelection.Toggled | client/src/components/GenreSelection.js:32-40 | the genre is present afterwards iff it was absent before |
| GenreSelection.WithoutAbsent | client/src/components/GenreSelection.js:35 | filtering an absent genre changes nothing |
| GenreSelection.ToggleAbsentAppends | client/src/components/GenreSelection.js:36-38 | an unlisted genre is appended |
| GenreSelection.TogglePresentRemoves | client/src/components/GenreSelection.js:34-35 | a listed genre is removed with all its copies; others kept |
| GenreSelection.WithoutAppend | client/src/components/GenreSelection.js:35 | filtering distributes over concatenation, so the other genres keep their order |
| GenreSelection.TogglePresentKeepsOrder | client/src/components/GenreSelection.js:34-35 | removing a listed genre leaves the genres before and after it in order |
| GenreSelection.ToggleTwiceRestores | client/src/components/GenreSelection.js:32-40 | two clicks on an unlisted genre restore the list |
| GenreSelection.ToggleKeepsDistinct | client/src/components/GenreSelection.js:32-40 | toggling keeps a duplicate-free list duplicate-free |
| GenreSelection.WithoutKeepsDistinct | client/src/components/GenreSelection.js:35 | filtering keeps a duplicate-free list duplicate-free |
| GenreSelection.Picker.constructor | client/src/components/GenreSelection.js:5-6 | nothing selected, not saving |
| GenreSelection.Picker.ToggleGenre | client/src/components/GenreSelection.js:32-40 | the selection becomes the toggled list |
| GenreSelection.Picker.Submit | client/src/components/GenreSelection.js:42-62 | nothing sent iff nothing selected; else posts the selection; saving stays set only on success |
| GenreSelection.Picker.Skip | client/src/components/GenreSelection.js:64-76 | nothing sent unless confirmed; else posts an empty list |
| SongList.ShouldFetchFavorites | client/src/components/SongList.js:7-11 | always in favourites mode, never in list mode, otherwise iff the prop is not an array |
| SongList.WithoutFavorite | client/src/components/SongList.js:53 | keeps exactly the entries of other favourites |
| SongList.WithoutFavoriteAppend | client/src/components/SongList.js:53 | filtering distributes over concatenation, so order is kept |
| SongList.WithoutFavoriteKeepsOthers | client/src/components/SongList.js:53 | a list without that favourite is unchanged |
| SongList.FavoriteEntries | client/src/components/SongList.js:33-36 | one entry per row, carrying its favourite id |
| SongList.DeleteLoadedFavorite | client/src/components/SongList.js:50-57 | deleting a loaded favourite removes exactly its row |
| SongList.SongListState.constructor | client/src/components/SongList.js:13-14 | the list is the array prop or empty; the spinner shows iff it loads favourites itself |
| SongList.SongListState.FetchFavorites | client/src/components/SongList.js:24-48 | nothing without a fetch or a user; else the rows, or [] on failure, and the spinner ends |
| SongList.SongListState.PropChanged | client/src/components/SongList.js:7-22 | the memoised fetch flag is recomputed from the mode and the new prop; an array prop replaces the list and ends the spinner, any other prop leaves list and spinner alone |
| SongList.SongListState.HandleDelete | client/src/components/SongList.js:50-57 | a successful delete removes that favourite's entries; a failure changes nothing |
| SongList.SongListState.HandleAdd | client/src/components/SongList.js:59-72 | a successful add records the id; an id already there leaves the set as it was |

## Left out

- Network I/O, retries with back-off, sleeps and rate limits are left out. Each remote reply (Deezer, iTunes, Last.fm, Spotify, YouTube, MusicBrainz, the store) is an input value or a function parameter, and `None` stands for a thrown request. `Promise.all` parallelism is not modelled.
- Clocks (`Date.now`, `new Date()`) are integer inputs.
- The sentiment classifier is an abstract labelling function.
- `searchYoutubeVideo`, `getComments`, the YouTube and iTunes batch job runners and the seed script are I/O loops and are not part of this model.
- `toFixed` rounding is not modelled. This affects `formatNumber`'s one decimal, the three decimals of the sentiment score and the snapshot log line. The model states the exact values before rounding.
- Floating-point arithmetic is modelled with Dafny's exact `real`.
- Case-insensitive matching and `toLowerCase` are modelled for ASCII letters only. Non-ASCII case mapping is not modelled.
- Regex metacharacter escaping is assumed correct, so a pattern is matched as a literal substring.
- Itunes.PickBestResult: the scores are computed once per result before the scan, rather than inside the loop. The values are the same.
- Itunes.MatchOf: the pass-through fields `trackPrice`, `currency`, `discNumber` and `trackNumber` are omitted. The collection name, ISRC, preview and view URLs are kept.
- SongRoutes.EnrichAll: the selection query is an input, represented by the songs it returns. A failed save is not modelled separately from a failed fetch.
- SongRoutes.PageOf: a negative `limit` is taken as its absolute value, as the store does.
- Snapshots.CreateSnapshot: the whole run aborts on the first failing write, and that write's index is an input.
- React's asynchronous `setState` and stale closures are not modelled. State updates apply immediately.
- SongList.SongListState.PropChanged: React re-runs the favorites effect after a change of the memoised flag. The model leaves that re-run to the caller, which then calls `FetchFavorites`.
- SongModal.RecsPanel.Load: `loadRecommendations` is split at its `await` into `Load` and `Settle`.
- Spotify.NextToken: `getAccessToken` reads `Date.now()` twice (server/src/services/spotify.js:11 and :36). The model uses one `now` for both, so the time the token request takes is not added to the stored expiry.
- SongRoutes.AddFavorite: the catch-all 500 answer (server/src/routes/songs.js:89-94) is not modelled. It covers a malformed song id (a cast error in `findById`), a `Favorite` validation failure such as a missing user, and a store failure during the insert or the read-back.
- SongRoutes.EnrichSong: the catch-all 500 answer (server/src/routes/songs.js:201-202) is not modelled. It covers a malformed song id, a provider call that throws instead of answering null, and a failing `save`.
- SongRoutes.ViewSong: the catch-all 500 answer (server/src/routes/songs.js:411-413) is not modelled. It covers a malformed song id and a failing `save`, after which the document in memory already holds the new count.
- Spotify.TokenCache.SearchTracks: the `limit` parameter is passed through to the provider and does not appear in the model.
- Youtube.GetVideoStats: the counts are natural numbers. The `Number()` parsing of the provider's strings is not modelled.
- SongModal.FormatDuration: `formatDuration` is modelled for whole non-negative seconds only.
- Authentication, sessions and the Passport strategies are outside the modelled core. So are the stats and auth routes, Song search and the pages that only render.

## Findings

| source | as written | input that shows it | evidently intended | confidence | as-written member | corrected member |
|---|---|---|---|---|---|---|
| server/src/routes/popular.js:84-91 | the last-week trend takes the first seven snapshot ids in ascending order. It compares the seventh id with the first, that is the seventh-oldest snapshot with the oldest one | eight or more snapshots: the answer never changes when newer snapshots arrive | compare the newest snapshot with the one six before it | medium, not executed | Trending.TrendLastWeek, Trending.LastWeekIgnoresNewer | Trending.TrendLastWeekLatest, Trending.LastWeekLatestFollowsNewest |
