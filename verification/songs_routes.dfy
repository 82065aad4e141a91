/** The song routes of server/src/routes/songs.js that carry rules: `/all`
    pagination, `/favorite` insertion under the unique (user, song) index,
    the enrichment merge of `/enrich/:songId` and `/enrich-all`, and the
    view counter. Provider answers, the rank-ordered catalogue and the
    favourite collection are inputs. */
module SongRoutes {
  import opened Common
  import opened Itunes
  import opened Buckets

  // ---------------------------------------------------------------------
  // GET /all
  // ---------------------------------------------------------------------

  const DefaultPage: int := 1
  const DefaultLimit: int := 50

  /** `parseInt(x) || d`: `None` is a missing or non-numeric value (NaN). */
  function OrDefault(x: Option<int>, d: int): (r: int)
    ensures x.Some? && x.value != 0 ==> r == x.value
    ensures x.None? || x.value == 0 ==> r == d
  {
    if x.Some? && x.value != 0 then x.value else d
  }

  datatype Paging = Paging(page: int, limit: int, skip: int)

  /** The page, limit and skip the route derives from its query string. */
  function ReadPaging(pageArg: Option<int>, limitArg: Option<int>): (p: Paging)
    ensures p.page != 0 && p.limit != 0
    ensures pageArg.None? || pageArg == Some(0) ==> p.page == DefaultPage
    ensures limitArg.None? || limitArg == Some(0) ==> p.limit == DefaultLimit
    ensures pageArg.Some? && pageArg.value != 0 ==> p.page == pageArg.value
    ensures limitArg.Some? && limitArg.value != 0 ==> p.limit == limitArg.value
    ensures p.skip == (p.page - 1) * p.limit
  {
    var page := OrDefault(pageArg, DefaultPage);
    var limit := OrDefault(limitArg, DefaultLimit);
    Paging(page, limit, (page - 1) * limit)
  }

  /** `Math.ceil(a / b)` for a count `a` and a non-zero `b`. */
  function CeilDiv(a: nat, b: int): (q: int)
    requires b != 0
    ensures b > 0 ==> (q - 1) * b < a <= q * b
    ensures b < 0 ==> q * b <= a < (q - 1) * b
  {
    if b > 0 then
      DivBracket(a + b - 1, b);
      (a + b - 1) / b
    else
      DivBracket(a, -b);
      -(a / -b)
  }

  lemma DivBracket(a: int, b: int)
    requires b > 0
    ensures (a / b) * b <= a < (a / b) * b + b
  {
  }

  datatype PageError = NegativeSkip

  /** `find().sort({rank: -1}).skip(skip).limit(limit)` over the catalogue in
      rank order. A negative skip is refused by the database; a negative
      limit returns as many documents as its absolute value. */
  function PageOf<T>(ranked: seq<T>, p: Paging): (r: Result<seq<T>, PageError>)
    ensures r.Failure? <==> p.skip < 0
    ensures r.Success? ==> |r.value| == Min(Abs(p.limit), |ranked| - Min(p.skip, |ranked|))
    ensures r.Success? ==> r.value == ranked[Min(p.skip, |ranked|)..Min(p.skip, |ranked|) + |r.value|]
  {
    if p.skip < 0 then Failure(NegativeSkip)
    else
      var from := Min(p.skip, |ranked|);
      Success(ranked[from..Min(from + Abs(p.limit), |ranked|)])
  }

  function Abs(x: int): nat { if x < 0 then -x else x }

  /** With a positive limit, page `page` starts before the end exactly when
      `page <= pages`, and every page before the last is full. */
  lemma PageSpan(total: nat, page: int, limit: int)
    requires limit > 0 && page > 0
    ensures var pages := CeilDiv(total, limit);
            ((page - 1) * limit < total <==> page <= pages)
            && (page < pages ==> (page - 1) * limit + limit < total)
  {
    var pages := CeilDiv(total, limit);
    if page <= pages {
      MulMono(page - 1, pages - 1, limit);
    } else {
      MulMono(pages, page - 1, limit);
    }
    if page < pages {
      MulMono(page, pages - 1, limit);
      assert (page - 1) * limit + limit == page * limit;
    }
  }

  /** With a positive limit, pages 1 to `pages` are exactly the non-empty
      pages of the catalogue, and each holds `limit` songs except possibly
      the last. */
  lemma PagesAreNonEmptyPages<T>(ranked: seq<T>, pageArg: Option<int>, limitArg: Option<int>)
    requires ReadPaging(pageArg, limitArg).limit > 0 && ReadPaging(pageArg, limitArg).page > 0
    ensures var p := ReadPaging(pageArg, limitArg);
            var pages := CeilDiv(|ranked|, p.limit);
            PageOf(ranked, p).Success?
            && (PageOf(ranked, p).value != [] <==> p.page <= pages)
            && (p.page < pages ==> |PageOf(ranked, p).value| == p.limit)
  {
    var p := ReadPaging(pageArg, limitArg);
    PageSpan(|ranked|, p.page, p.limit);
    assert 0 <= p.skip by {
      MulMono(0, p.page - 1, p.limit);
    }
  }

  lemma MulMono(x: int, y: int, c: int)
    requires x <= y && c > 0
    ensures x * c <= y * c
  {
  }

  // ---------------------------------------------------------------------
  // POST /favorite
  // ---------------------------------------------------------------------

  datatype FavoriteRow = FavoriteRow(user: string, song: string)

  datatype FavoriteError = SongNotFound | AlreadyInFavorites

  datatype FavoriteOutcome = FavoriteOutcome(result: Result<FavoriteRow, FavoriteError>, favorites: set<FavoriteRow>)

  /** Insert a favourite: 404 for a song not in the catalogue, 400 when the
      unique (user, song) index already holds the pair. */
  function AddFavorite(catalog: set<string>, favorites: set<FavoriteRow>, user: string, song: string): (r: FavoriteOutcome)
    ensures r.result.Success? <==> song in catalog && FavoriteRow(user, song) !in favorites
    ensures r.result == Failure(SongNotFound) <==> song !in catalog
    ensures r.result.Success? ==> r.result.value == FavoriteRow(user, song)
    ensures r.favorites == favorites + (if r.result.Success? then {FavoriteRow(user, song)} else {})
  {
    if song !in catalog then FavoriteOutcome(Failure(SongNotFound), favorites)
    else if FavoriteRow(user, song) in favorites then FavoriteOutcome(Failure(AlreadyInFavorites), favorites)
    else FavoriteOutcome(Success(FavoriteRow(user, song)), favorites + {FavoriteRow(user, song)})
  }

  /** Adding the same favourite twice stores it once; the repeat answers
      "already in favorites". */
  lemma AddFavoriteTwice(catalog: set<string>, favorites: set<FavoriteRow>, user: string, song: string)
    requires song in catalog
    ensures var once := AddFavorite(catalog, favorites, user, song);
            var twice := AddFavorite(catalog, once.favorites, user, song);
            twice.result == Failure(AlreadyInFavorites) && twice.favorites == once.favorites
            && FavoriteRow(user, song) in once.favorites
  {
  }

  // ---------------------------------------------------------------------
  // Enrichment
  // ---------------------------------------------------------------------

  datatype Contributor = Contributor(id: int, name: string, role: string)

  /** What the Deezer adapter returns for a found track. */
  datatype DeezerData = DeezerData(
    bpm: Option<real>, gain: Option<real>, explicitLyrics: bool,
    contributors: seq<Contributor>, preview: Option<string>, cover: Option<string>)

  /** What the Last.fm track-info adapter returns. */
  datatype LastfmInfo = LastfmInfo(playcount: Option<int>, listeners: Option<int>, tags: Option<seq<string>>, mbid: Option<string>)

  datatype LastfmData = LastfmData(playcount: int, listeners: int, tags: seq<string>, mbid: Option<string>, similarTracks: seq<SimilarTrack>)

  /** The four provider answers for one song. */
  datatype Fetch = Fetch(deezer: Option<DeezerData>, itunes: seq<Match>, lastfm: Option<LastfmInfo>, similar: seq<SimilarTrack>)

  /** The song fields enrichment may write. */
  datatype Enrichable = Enrichable(
    bpm: Option<real>, gain: Option<real>, explicitLyrics: Option<bool>, contributors: seq<Contributor>,
    preview: Option<string>, cover: Option<string>, itunesData: seq<Match>, lastfmData: Option<LastfmData>)

  /** The `lastfmData` object the handlers build. */
  function LastfmOf(info: Option<LastfmInfo>, similar: seq<SimilarTrack>): (d: LastfmData)
    ensures d.similarTracks == similar
    ensures info.None? ==> d == LastfmData(0, 0, [], None, similar)
    ensures d.mbid.Some? ==> d.mbid.value != []
  {
    match info
    case None => LastfmData(0, 0, [], None, similar)
    case Some(i) =>
      LastfmData(GetOr(i.playcount, 0), GetOr(i.listeners, 0), if i.tags.Some? then i.tags.value else [],
                 if Truthy(i.mbid) then i.mbid else None, similar)
  }

  /** Whether any provider yields data, which is when the song is saved. */
  predicate HasData(f: Fetch)
  {
    f.deezer.Some? || |f.itunes| > 0 || f.lastfm.Some? || |f.similar| > 0
  }

  /** The fields after the merge: Deezer overwrites its four fields and the
      preview and cover only when it has them; iTunes matches replace the old
      ones when there are any; Last.fm data is rebuilt when info or similar
      tracks exist. */
  function Merged(e: Enrichable, f: Fetch): (r: Enrichable)
    ensures !HasData(f) ==> r == e
    ensures f.deezer.Some? ==> r.bpm == f.deezer.value.bpm && r.gain == f.deezer.value.gain
                               && r.explicitLyrics == Some(f.deezer.value.explicitLyrics)
                               && r.contributors == f.deezer.value.contributors
    ensures f.deezer.None? ==> r.bpm == e.bpm && r.gain == e.gain && r.explicitLyrics == e.explicitLyrics
                               && r.contributors == e.contributors
    ensures r.preview == (if f.deezer.Some? && Truthy(f.deezer.value.preview) then f.deezer.value.preview else e.preview)
    ensures r.cover == (if f.deezer.Some? && Truthy(f.deezer.value.cover) then f.deezer.value.cover else e.cover)
    ensures r.itunesData == (if |f.itunes| > 0 then f.itunes else e.itunesData)
    ensures r.lastfmData == (if f.lastfm.Some? || |f.similar| > 0 then Some(LastfmOf(f.lastfm, f.similar)) else e.lastfmData)
  {
    WithLastfm(WithItunes(WithDeezer(e, f.deezer), f.itunes), f.lastfm, f.similar)
  }

  /** The Deezer block of the merge. */
  function WithDeezer(e: Enrichable, deezer: Option<DeezerData>): Enrichable
  {
    match deezer
    case None => e
    case Some(d) =>
      e.(bpm := d.bpm, gain := d.gain, explicitLyrics := Some(d.explicitLyrics), contributors := d.contributors,
         preview := if Truthy(d.preview) then d.preview else e.preview,
         cover := if Truthy(d.cover) then d.cover else e.cover)
  }

  /** The iTunes block of the merge. */
  function WithItunes(e: Enrichable, itunes: seq<Match>): Enrichable
  {
    if |itunes| > 0 then e.(itunesData := itunes) else e
  }

  /** The Last.fm block of the merge. */
  function WithLastfm(e: Enrichable, info: Option<LastfmInfo>, similar: seq<SimilarTrack>): Enrichable
  {
    if info.Some? || |similar| > 0 then e.(lastfmData := Some(LastfmOf(info, similar))) else e
  }

  /** Enriching twice with the same answers is enriching once. */
  lemma MergedIdempotent(e: Enrichable, f: Fetch)
    ensures Merged(Merged(e, f), f) == Merged(e, f)
  {
  }

  /** A song document. */
  class SongRecord {
    var bpm: Option<real>
    var gain: Option<real>
    var explicitLyrics: Option<bool>
    var contributors: seq<Contributor>
    var preview: Option<string>
    var cover: Option<string>
    var itunesData: seq<Match>
    var lastfmData: Option<LastfmData>
    var viewCount: Option<int>
    var lastViewedAt: Option<int>

    function Fields(): Enrichable
      reads this
    {
      Enrichable(bpm, gain, explicitLyrics, contributors, preview, cover, itunesData, lastfmData)
    }

    /** The field updates of both enrich handlers; `updated` says whether
        any provider wrote something. */
    method Enrich(f: Fetch) returns (updated: bool)
      modifies this
      ensures Fields() == Merged(old(Fields()), f)
      ensures updated <==> HasData(f)
      ensures !updated ==> unchanged(this)
      ensures viewCount == old(viewCount) && lastViewedAt == old(lastViewedAt)
    {
      ApplyDeezer(f.deezer);
      ApplyItunes(f.itunes);
      ApplyLastfm(f.lastfm, f.similar);
      updated := HasData(f);
    }

    /** Deezer's fields, and its preview and cover only when present. */
    method ApplyDeezer(deezer: Option<DeezerData>)
      modifies this
      ensures Fields() == WithDeezer(old(Fields()), deezer)
      ensures deezer.None? ==> unchanged(this)
      ensures viewCount == old(viewCount) && lastViewedAt == old(lastViewedAt)
    {
      if deezer.Some? {
        var d := deezer.value;
        bpm := d.bpm;
        gain := d.gain;
        explicitLyrics := Some(d.explicitLyrics);
        contributors := d.contributors;
        if Truthy(d.preview) {
          preview := d.preview;
        }
        if Truthy(d.cover) {
          cover := d.cover;
        }
      }
    }

    /** The iTunes matches replace the stored ones when there are any. */
    method ApplyItunes(itunes: seq<Match>)
      modifies this
      ensures Fields() == WithItunes(old(Fields()), itunes)
      ensures |itunes| == 0 ==> unchanged(this)
      ensures viewCount == old(viewCount) && lastViewedAt == old(lastViewedAt)
    {
      if |itunes| > 0 {
        itunesData := itunes;
      }
    }

    /** Last.fm data is rebuilt when there is info or a similar track. */
    method ApplyLastfm(info: Option<LastfmInfo>, similar: seq<SimilarTrack>)
      modifies this
      ensures Fields() == WithLastfm(old(Fields()), info, similar)
      ensures info.None? && |similar| == 0 ==> unchanged(this)
      ensures viewCount == old(viewCount) && lastViewedAt == old(lastViewedAt)
    {
      if info.Some? || |similar| > 0 {
        lastfmData := Some(LastfmOf(info, similar));
      }
    }

    /** `POST /:songId/view`: one more view, stamped with `now`. */
    method RecordView(now: int) returns (count: int)
      modifies this
      ensures count == GetOr(old(viewCount), 0) + 1
      ensures viewCount == Some(count) && lastViewedAt == Some(now)
      ensures Fields() == old(Fields())
    {
      count := GetOr(viewCount, 0) + 1;
      viewCount := Some(count);
      lastViewedAt := Some(now);
    }
  }

  datatype EnrichedWith = EnrichedWith(deezer: bool, itunes: bool, lastfm: bool)

  datatype EnrichOutcome = NotFound | NoData | Enriched(with: EnrichedWith)

  /** `POST /enrich/:songId`: 404 for a missing song, 404 (nothing saved) when
      no provider yields data, otherwise the merged song and which providers
      contributed. */
  method EnrichSong(song: SongRecord?, f: Fetch) returns (outcome: EnrichOutcome)
    modifies song
    ensures song == null <==> outcome.NotFound?
    ensures song != null ==> song.Fields() == Merged(old(song.Fields()), f)
    ensures song != null ==> song.viewCount == old(song.viewCount) && song.lastViewedAt == old(song.lastViewedAt)
    ensures song != null && !HasData(f) ==> outcome.NoData? && unchanged(song)
    ensures outcome.Enriched? <==> song != null && HasData(f)
    ensures outcome.Enriched? ==>
              outcome.with == EnrichedWith(f.deezer.Some?, |f.itunes| > 0, f.lastfm.Some? || |f.similar| > 0)
  {
    if song == null {
      return NotFound;
    }
    var updated := song.Enrich(f);
    if !updated {
      return NoData;
    }
    outcome := Enriched(EnrichedWith(f.deezer.Some?, |f.itunes| > 0, f.lastfm.Some? || |f.similar| > 0));
  }

  /** Number of songs `enrich-all` counts as enriched: those whose provider
      calls did not throw (`Some`) and yielded data. */
  function EnrichedCount(fetched: seq<Option<Fetch>>): (n: nat)
    ensures n <= |fetched|
  {
    if fetched == [] then 0
    else EnrichedCount(fetched[..|fetched| - 1])
         + (if fetched[|fetched| - 1].Some? && HasData(fetched[|fetched| - 1].value) then 1 else 0)
  }

  /** No song is counted enriched when every provider call threw or found
      nothing, and all are when each found something. */
  lemma {:induction false} EnrichedCountBounds(fetched: seq<Option<Fetch>>)
    ensures (forall i :: 0 <= i < |fetched| ==> fetched[i].None? || !HasData(fetched[i].value)) ==> EnrichedCount(fetched) == 0
    ensures (forall i :: 0 <= i < |fetched| ==> fetched[i].Some? && HasData(fetched[i].value)) ==> EnrichedCount(fetched) == |fetched|
    decreases |fetched|
  {
    if fetched != [] {
      EnrichedCountBounds(fetched[..|fetched| - 1]);
    }
  }

  /** `POST /enrich-all` over the selected songs: `fetched[i]` is `None` when
      the provider calls for song `i` threw. Each song counts once, as
      enriched or as failed. */
  method EnrichAll(songs: seq<SongRecord>, fetched: seq<Option<Fetch>>) returns (enriched: nat, failed: nat)
    requires |fetched| == |songs|
    requires forall i, j :: 0 <= i < j < |songs| ==> songs[i] != songs[j]
    modifies set s | s in songs
    ensures enriched == EnrichedCount(fetched)
    ensures enriched + failed == |songs|
    ensures forall i :: 0 <= i < |songs| ==>
              songs[i].Fields() == (if fetched[i].Some? then Merged(old(songs[i].Fields()), fetched[i].value) else old(songs[i].Fields()))
    ensures forall i :: 0 <= i < |songs| ==>
              songs[i].viewCount == old(songs[i].viewCount) && songs[i].lastViewedAt == old(songs[i].lastViewedAt)
  {
    enriched, failed := 0, 0;
    for i := 0 to |songs|
      invariant enriched == EnrichedCount(fetched[..i])
      invariant enriched + failed == i
      invariant forall j :: 0 <= j < i ==>
                  songs[j].Fields() == (if fetched[j].Some? then Merged(old(songs[j].Fields()), fetched[j].value) else old(songs[j].Fields()))
      invariant forall j :: i <= j < |songs| ==> songs[j].Fields() == old(songs[j].Fields())
      invariant forall j :: 0 <= j < |songs| ==>
                  songs[j].viewCount == old(songs[j].viewCount) && songs[j].lastViewedAt == old(songs[j].lastViewedAt)
    {
      assert fetched[..i + 1][..i] == fetched[..i];
      if fetched[i].None? {
        failed := failed + 1;
      } else {
        var updated := songs[i].Enrich(fetched[i].value);
        if updated {
          enriched := enriched + 1;
        } else {
          failed := failed + 1;
        }
      }
    }
    assert fetched[..|songs|] == fetched;
  }

  datatype ViewError = SongMissing

  /** `POST /:songId/view`: 404 for a missing song, otherwise the new count. */
  method ViewSong(song: SongRecord?, now: int) returns (r: Result<int, ViewError>)
    modifies song
    ensures song == null <==> r.Failure?
    ensures song != null ==> r == Success(GetOr(old(song.viewCount), 0) + 1) && song.viewCount == Some(r.value)
    ensures song != null ==> song.lastViewedAt == Some(now) && song.Fields() == old(song.Fields())
  {
    if song == null {
      return Failure(SongMissing);
    }
    var count := song.RecordView(now);
    return Success(count);
  }
}
