/** Candidate generation of the personalised recommendation route
    (server/src/routes/users.js): the explicit-genre bucket, the indirect
    bucket (detected artists, then detected genres) and the
    similar-to-saved bucket. Store queries are modelled as filters over the
    song collection; the similar-tracks provider is an abstract function that
    may fail. */
module Buckets {
  import opened Common

  type SongId = string

  datatype Song = Song(id: SongId, title: string, artist: string, genre: Option<string>, tags: seq<string>)

  /** The song collection twice over: `ranked` in the order of the
      `{rank: -1, popularity: -1}` sort used by the genre and artist queries,
      `natural` in storage order, which is what an unsorted `findOne` scans. */
  datatype Store = Store(ranked: seq<Song>, natural: seq<Song>)

  /** A favourite after `populate`: its song may no longer exist. */
  datatype Favorite = Favorite(song: Option<Song>)

  datatype SimilarTrack = SimilarTrack(name: string, artist: string, matchValue: real)

  /** The similar-tracks provider for a (title, artist) pair; `None` is a
      thrown error, which the route catches per favourite. */
  type SimilarProvider = (string, string) -> Option<seq<SimilarTrack>>

  datatype RecType = Explicit | Indirect | SimilarSaved

  datatype Candidate = Candidate(song: Song, recType: RecType, basedOn: Option<string>, matchScore: Option<real>)

  /** Cap of every genre and artist query. */
  const FetchLimit: nat := 80
  /** Number of favourites whose similar tracks are looked up. */
  const SimilarSources: nat := 5

  function SongIds(songs: seq<Song>): set<SongId>
  {
    set s | s in songs :: s.id
  }

  function Ids(s: seq<Candidate>): set<SongId>
  {
    set c | c in s :: c.song.id
  }

  /** The id set of the user's favourites whose song still resolves. */
  function FavoriteIds(favorites: seq<Favorite>): set<SongId>
  {
    set f | f in favorites && f.song.Some? :: f.song.value.id
  }

  predicate DistinctIds(s: seq<Candidate>)
  {
    forall i, j :: 0 <= i < j < |s| ==> s[i].song.id != s[j].song.id
  }

  lemma IdsAppend(a: seq<Candidate>, b: seq<Candidate>)
    ensures Ids(a + b) == Ids(a) + Ids(b)
  {
    forall x | x in Ids(a + b) ensures x in Ids(a) + Ids(b) {
      var c :| c in a + b && c.song.id == x;
    }
    forall x | x in Ids(a) + Ids(b) ensures x in Ids(a + b) {
      if x in Ids(a) {
        var c :| c in a && c.song.id == x;
        assert c in a + b;
      } else {
        var c :| c in b && c.song.id == x;
        assert c in a + b;
      }
    }
  }

  // ---------------------------------------------------------------------
  // Query helpers
  // ---------------------------------------------------------------------

  /** `map(x => String(x || '').trim()).filter(Boolean)`. */
  function Clean(xs: seq<string>): (r: seq<string>)
    ensures forall x :: x in r ==> x != []
    ensures |r| <= |xs|
  {
    if xs == [] then []
    else (if Trim(xs[0]) == [] then [] else [Trim(xs[0])]) + Clean(xs[1..])
  }

  /** The cleaned list holds exactly the non-blank trimmed entries. */
  lemma {:induction false} CleanMembers(xs: seq<string>)
    ensures forall x :: x in xs && Trim(x) != [] ==> Trim(x) in Clean(xs)
    ensures forall y :: y in Clean(xs) ==> exists x :: x in xs && Trim(x) == y
    decreases |xs|
  {
    if xs != [] {
      CleanMembers(xs[1..]);
      assert forall x :: x in xs ==> x == xs[0] || x in xs[1..];
    }
  }

  /** Cleaning works entry by entry, so the kept entries stay in order. */
  lemma {:induction false} CleanAppend(a: seq<string>, b: seq<string>)
    ensures Clean(a + b) == Clean(a) + Clean(b)
    decreases |a|
  {
    if a == [] {
      assert a + b == b;
    } else {
      var head := if Trim(a[0]) == [] then [] else [Trim(a[0])];
      assert (a + b)[0] == a[0];
      DropAppend(a, b, 1);
      CleanAppend(a[1..], b);
      assert Clean(a + b) == head + (Clean(a[1..]) + Clean(b));
      AppendAssoc(head, Clean(a[1..]), Clean(b));
    }
  }

  /** A blank entry anywhere in the list changes nothing after cleaning. */
  lemma {:induction false} CleanDropsBlank(xs: seq<string>, blank: string, ys: seq<string>)
    requires Trim(blank) == []
    ensures Clean(xs + [blank] + ys) == Clean(xs + ys)
  {
    var whole := xs + [blank] + ys;
    if xs == [] {
      assert whole[0] == blank && whole[1..] == ys;
      assert xs + ys == ys;
    } else {
      CleanDropsBlank(xs[1..], blank, ys);
      assert whole[0] == xs[0] && whole[1..] == xs[1..] + [blank] + ys;
      assert (xs + ys)[0] == xs[0] && (xs + ys)[1..] == xs[1..] + ys;
    }
  }

  /** One of the escaped, case-insensitive patterns occurs in `field`. */
  predicate MatchesAny(field: string, patterns: seq<string>)
  {
    exists p :: p in patterns && ContainsCi(field, p)
  }

  predicate GenreHit(s: Song, patterns: seq<string>)
  {
    s.genre.Some? && MatchesAny(s.genre.value, patterns)
  }

  predicate TagHit(s: Song, patterns: seq<string>)
  {
    exists t :: t in s.tags && MatchesAny(t, patterns)
  }

  predicate ArtistHit(s: Song, patterns: seq<string>)
  {
    MatchesAny(s.artist, patterns)
  }

  function Filter(songs: seq<Song>, keep: Song -> bool): (r: seq<Song>)
    ensures |r| <= |songs|
    ensures forall s :: s in r <==> s in songs && keep(s)
  {
    if songs == [] then []
    else (if keep(songs[0]) then [songs[0]] else []) + Filter(songs[1..], keep)
  }

  lemma {:induction false} FilterAppend(a: seq<Song>, b: seq<Song>, keep: Song -> bool)
    ensures Filter(a + b, keep) == Filter(a, keep) + Filter(b, keep)
  {
    if a == [] {
      assert a + b == b;
    } else {
      var head := if keep(a[0]) then [a[0]] else [];
      assert (a + b)[0] == a[0] && (a + b)[1..] == a[1..] + b;
      calc {
        Filter(a + b, keep);
        head + Filter(a[1..] + b, keep);
        { FilterAppend(a[1..], b, keep); }
        head + (Filter(a[1..], keep) + Filter(b, keep));
        (head + Filter(a[1..], keep)) + Filter(b, keep);
        Filter(a, keep) + Filter(b, keep);
      }
    }
  }

  /** The songs of `ranked` whose genre matches, in rank order. */
  function ByGenre(ranked: seq<Song>, patterns: seq<string>): seq<Song>
  {
    Filter(ranked, s => GenreHit(s, patterns))
  }

  /** The songs of `ranked` with a matching tag, in rank order. */
  function ByTag(ranked: seq<Song>, patterns: seq<string>): seq<Song>
  {
    Filter(ranked, s => TagHit(s, patterns))
  }

  /** The songs of `ranked` whose artist matches, in rank order. */
  function ByArtist(ranked: seq<Song>, patterns: seq<string>): seq<Song>
  {
    Filter(ranked, s => ArtistHit(s, patterns))
  }

  /** `fetchSongsByGenres`: songs whose `genre` matches one of the cleaned
      genres, falling back to the Last.fm tags only when that query is empty;
      either query returns as many matching songs as exist, up to `limit`. */
  function SongsByGenres(ranked: seq<Song>, genres: seq<string>, limit: nat): (r: seq<Song>)
    ensures |r| <= limit
    ensures forall s :: s in r ==> s in ranked
    ensures Clean(genres) == [] ==> r == []
    ensures (forall s :: s in r ==> GenreHit(s, Clean(genres)))
         || ((limit == 0 || forall s :: s in ranked ==> !GenreHit(s, Clean(genres)))
             && forall s :: s in r ==> TagHit(s, Clean(genres)))
    ensures Clean(genres) != [] && ByGenre(ranked, Clean(genres)) != [] ==>
              |r| == Min(|ByGenre(ranked, Clean(genres))|, limit)
    ensures Clean(genres) != [] && ByGenre(ranked, Clean(genres)) == [] ==>
              |r| == Min(|ByTag(ranked, Clean(genres))|, limit)
  {
    var patterns := Clean(genres);
    if patterns == [] then []
    else
      var byGenre := Take(ByGenre(ranked, patterns), limit);
      if byGenre != [] then byGenre
      else
        assert limit > 0 ==> ByGenre(ranked, patterns) == [];
        Take(ByTag(ranked, patterns), limit)
  }

  /** `fetchSongsByArtists`: songs whose artist contains a cleaned artist
      name, as many as exist up to `limit`. */
  function SongsByArtists(ranked: seq<Song>, artists: seq<string>, limit: nat): (r: seq<Song>)
    ensures |r| <= limit
    ensures forall s :: s in r ==> s in ranked && ArtistHit(s, Clean(artists))
    ensures Clean(artists) == [] ==> r == []
    ensures Clean(artists) != [] ==> |r| == Min(|ByArtist(ranked, Clean(artists))|, limit)
  {
    var patterns := Clean(artists);
    if patterns == [] then [] else Take(ByArtist(ranked, patterns), limit)
  }

  function NotFavorite(songs: seq<Song>, favIds: set<SongId>): (r: seq<Song>)
    ensures forall s :: s in r <==> s in songs && s.id !in favIds
  {
    Filter(songs, (s: Song) => s.id !in favIds)
  }

  /** Tags every song with its bucket. */
  function Tag(songs: seq<Song>, t: RecType): (r: seq<Candidate>)
    ensures |r| == |songs|
    ensures forall i :: 0 <= i < |r| ==> r[i] == Candidate(songs[i], t, None, None)
  {
    seq(|songs|, i requires 0 <= i < |songs| => Candidate(songs[i], t, None, None))
  }

  lemma TagCovers(songs: seq<Song>, t: RecType)
    ensures forall s :: s in songs ==> Candidate(s, t, None, None) in Tag(songs, t)
  {
    forall s | s in songs ensures Candidate(s, t, None, None) in Tag(songs, t) {
      var i :| 0 <= i < |songs| && songs[i] == s;
      assert Tag(songs, t)[i] == Candidate(s, t, None, None);
    }
  }

  /** The first song of each id, in order, ignoring ids already in `seen`. */
  function FirstById(songs: seq<Song>, seen: set<SongId>): (r: seq<Song>)
    ensures forall s :: s in r ==> s in songs && s.id !in seen
    ensures forall i, j :: 0 <= i < j < |r| ==> r[i].id != r[j].id
    ensures forall s :: s in songs && s.id !in seen ==> s.id in SongIds(r)
    decreases |songs|
  {
    if songs == [] then []
    else if songs[0].id in seen then FirstById(songs[1..], seen)
    else [songs[0]] + FirstById(songs[1..], seen + {songs[0].id})
  }

  lemma {:induction false} FirstByIdAppend(a: seq<Song>, b: seq<Song>, seen: set<SongId>)
    ensures FirstById(a + b, seen) == FirstById(a, seen) + FirstById(b, seen + SongIds(a))
    decreases |a|
  {
    if a == [] {
      assert a + b == b;
      assert SongIds(a) == {};
      assert seen + SongIds(a) == seen;
    } else {
      assert (a + b)[0] == a[0] && (a + b)[1..] == a[1..] + b;
      assert SongIds(a) == {a[0].id} + SongIds(a[1..]) by {
        assert a == [a[0]] + a[1..];
        forall x | x in SongIds(a) ensures x in {a[0].id} + SongIds(a[1..]) {
          var s :| s in a && s.id == x;
        }
      }
      if a[0].id in seen {
        FirstByIdAppend(a[1..], b, seen);
        assert seen + SongIds(a) == seen + SongIds(a[1..]);
      } else {
        FirstByIdAppend(a[1..], b, seen + {a[0].id});
        assert seen + {a[0].id} + SongIds(a[1..]) == seen + SongIds(a);
      }
    }
  }

  // ---------------------------------------------------------------------
  // The three buckets
  // ---------------------------------------------------------------------

  /** Step 2A: songs of the preferred genres, favourites removed. */
  function ExplicitCandidates(ranked: seq<Song>, preferredGenres: seq<string>, favIds: set<SongId>): (r: seq<Candidate>)
    ensures |r| <= FetchLimit
    ensures forall c :: c in r ==> c.recType == Explicit && c.song in ranked && c.song.id !in favIds
    ensures Clean(preferredGenres) == [] ==> r == []
    ensures forall s :: s in SongsByGenres(ranked, preferredGenres, FetchLimit) && s.id !in favIds ==>
              Candidate(s, Explicit, None, None) in r
    ensures forall c :: c in r ==>
              c.song in SongsByGenres(ranked, preferredGenres, FetchLimit) && c.basedOn == None && c.matchScore == None
    ensures r == Tag(NotFavorite(SongsByGenres(ranked, preferredGenres, FetchLimit), favIds), Explicit)
  {
    if preferredGenres == [] then
      assert Clean(preferredGenres) == [];
      []
    else
      var songs := NotFavorite(SongsByGenres(ranked, preferredGenres, FetchLimit), favIds);
      var r := Tag(songs, Explicit);
      assert forall c :: c in r ==> c.song in songs;
      TagCovers(songs, Explicit);
      r
  }

  function ArtistMatches(ranked: seq<Song>, detectedArtists: seq<string>): seq<Song>
  {
    if detectedArtists == [] then [] else SongsByArtists(ranked, detectedArtists, FetchLimit)
  }

  function DetectedGenreMatches(ranked: seq<Song>, detectedGenres: seq<string>): seq<Song>
  {
    if detectedGenres == [] then [] else SongsByGenres(ranked, detectedGenres, FetchLimit)
  }

  /** Step 2B on given query results: artist matches then genre matches,
      favourites removed, first occurrence of each id kept. */
  function MergeIndirect(byArtists: seq<Song>, byGenres: seq<Song>, favIds: set<SongId>): (r: seq<Candidate>)
    ensures forall c :: c in r ==> c.recType == Indirect && c.song in byArtists + byGenres && c.song.id !in favIds
    ensures DistinctIds(r)
  {
    var songs := FirstById(NotFavorite(byArtists + byGenres, favIds), {});
    var r := Tag(songs, Indirect);
    assert forall c :: c in r ==> c.song in songs;
    r
  }

  /** The indirect bucket: the detected-artist query (skipped when there are
      no detected artists) merged with the detected-genre query. */
  function IndirectCandidates(ranked: seq<Song>, detectedArtists: seq<string>, detectedGenres: seq<string>, favIds: set<SongId>): (r: seq<Candidate>)
    ensures forall c :: c in r ==> c.recType == Indirect && c.song in ranked && c.song.id !in favIds
    ensures DistinctIds(r)
  {
    MergeIndirect(ArtistMatches(ranked, detectedArtists), DetectedGenreMatches(ranked, detectedGenres), favIds)
  }

  lemma TagAppend(a: seq<Song>, b: seq<Song>, t: RecType)
    ensures Tag(a + b, t) == Tag(a, t) + Tag(b, t)
  {
  }

  /** The merged bucket is the artist part followed by the genre part, whose
      ids the artist part has not used. */
  lemma MergeIndirectSplit(byArtists: seq<Song>, byGenres: seq<Song>, favIds: set<SongId>)
    ensures var a := NotFavorite(byArtists, favIds);
            MergeIndirect(byArtists, byGenres, favIds)
            == Tag(FirstById(a, {}), Indirect) + Tag(FirstById(NotFavorite(byGenres, favIds), SongIds(a)), Indirect)
  {
    var a := NotFavorite(byArtists, favIds);
    var g := NotFavorite(byGenres, favIds);
    FilterAppend(byArtists, byGenres, (s: Song) => s.id !in favIds);
    FirstByIdAppend(a, g, {});
    assert {} + SongIds(a) == SongIds(a);
    TagAppend(FirstById(a, {}), FirstById(g, SongIds(a)), Indirect);
  }

  /** The merged bucket lists every surviving artist match before any genre
      match, a genre match survives only when no artist match has its id, and
      every non-favourite id of either query is represented. */
  lemma IndirectArtistsFirst(byArtists: seq<Song>, byGenres: seq<Song>, favIds: set<SongId>)
    ensures var r := MergeIndirect(byArtists, byGenres, favIds);
            var k := |FirstById(NotFavorite(byArtists, favIds), {})|;
            k <= |r|
            && (forall i :: 0 <= i < k ==> r[i].song in byArtists)
            && (forall i :: k <= i < |r| ==> r[i].song in byGenres && r[i].song.id !in SongIds(byArtists))
            && (forall s :: s in byArtists + byGenres && s.id !in favIds ==> s.id in Ids(r))
  {
    var a := NotFavorite(byArtists, favIds);
    var fa := FirstById(a, {});
    var fg := FirstById(NotFavorite(byGenres, favIds), SongIds(a));
    var r := MergeIndirect(byArtists, byGenres, favIds);
    MergeIndirectSplit(byArtists, byGenres, favIds);
    assert |r| == |fa| + |fg|;
    forall i | |fa| <= i < |r| ensures r[i].song in byGenres && r[i].song.id !in SongIds(byArtists) {
      var s := fg[i - |fa|];
      assert r[i].song == s;
      assert s in fg;
    }
    forall i | 0 <= i < |fa| ensures r[i].song in byArtists {
      assert r[i].song == fa[i];
      assert fa[i] in fa;
    }
    forall s: Song | s in byArtists + byGenres && s.id !in favIds ensures s.id in Ids(r) {
      MergeCovers(byArtists, byGenres, favIds, s);
    }
  }

  lemma MergeCovers(byArtists: seq<Song>, byGenres: seq<Song>, favIds: set<SongId>, s: Song)
    requires s in byArtists + byGenres && s.id !in favIds
    ensures s.id in Ids(MergeIndirect(byArtists, byGenres, favIds))
  {
    var merged := NotFavorite(byArtists + byGenres, favIds);
    var songs := FirstById(merged, {});
    var r := MergeIndirect(byArtists, byGenres, favIds);
    assert s in merged;
    var t: Song :| t in songs && t.id == s.id;
    var i :| 0 <= i < |songs| && songs[i] == t;
    assert r[i].song == t;
    assert r[i] in r;
  }

  /** Blank genres never change the genre lookup. */
  lemma BlankGenreIgnored(ranked: seq<Song>, genres: seq<string>, blank: string, more: seq<string>, limit: nat)
    requires Trim(blank) == []
    ensures SongsByGenres(ranked, genres + [blank] + more, limit) == SongsByGenres(ranked, genres + more, limit)
  {
    CleanDropsBlank(genres, blank, more);
  }

  /** Unsorted `findOne`: the first stored song whose title and artist
      contain the similar track's name and artist, ignoring case. */
  function FindOne(natural: seq<Song>, t: SimilarTrack): (r: Option<Song>)
    ensures r.Some? ==> r.value in natural && ContainsCi(r.value.title, t.name) && ContainsCi(r.value.artist, t.artist)
    ensures r.None? ==> forall s :: s in natural ==> !(ContainsCi(s.title, t.name) && ContainsCi(s.artist, t.artist))
  {
    if natural == [] then None
    else if ContainsCi(natural[0].title, t.name) && ContainsCi(natural[0].artist, t.artist) then Some(natural[0])
    else FindOne(natural[1..], t)
  }

  /** The local match of one similar track, unless it is a favourite. */
  function TrackRec(t: SimilarTrack, basedOn: string, natural: seq<Song>, favIds: set<SongId>): seq<Candidate>
  {
    match FindOne(natural, t)
    case Some(found) =>
      if found.id !in favIds then [Candidate(found, SimilarSaved, Some(basedOn), Some(t.matchValue))] else []
    case None => []
  }

  function TrackRecs(tracks: seq<SimilarTrack>, basedOn: string, natural: seq<Song>, favIds: set<SongId>): (r: seq<Candidate>)
    ensures |r| <= |tracks|
    ensures forall c :: c in r ==> c.recType == SimilarSaved && c.song in natural && c.song.id !in favIds
                                   && c.basedOn == Some(basedOn)
    ensures forall t :: t in tracks && FindOne(natural, t).Some? && FindOne(natural, t).value.id !in favIds ==>
              Candidate(FindOne(natural, t).value, SimilarSaved, Some(basedOn), Some(t.matchValue)) in r
  {
    if tracks == [] then []
    else TrackRecs(tracks[..|tracks| - 1], basedOn, natural, favIds) + TrackRec(tracks[|tracks| - 1], basedOn, natural, favIds)
  }

  /** The recommendations for a list of similar tracks are those of its parts,
      in track order; with `TrackRec` for one track this fixes them fully. */
  lemma {:induction false} TrackRecsAppend(a: seq<SimilarTrack>, b: seq<SimilarTrack>, basedOn: string, natural: seq<Song>, favIds: set<SongId>)
    ensures TrackRecs(a + b, basedOn, natural, favIds)
            == TrackRecs(a, basedOn, natural, favIds) + TrackRecs(b, basedOn, natural, favIds)
    decreases |b|
  {
    if b != [] {
      var bi := b[..|b| - 1];
      var last := TrackRec(b[|b| - 1], basedOn, natural, favIds);
      TrackRecsAppend(a, bi, basedOn, natural, favIds);
      assert (a + b)[..|a + b| - 1] == a + bi;
      assert (a + b)[|a + b| - 1] == b[|b| - 1];
      assert TrackRecs(a + b, basedOn, natural, favIds) == TrackRecs(a + bi, basedOn, natural, favIds) + last;
      AppendAssoc(TrackRecs(a, basedOn, natural, favIds), TrackRecs(bi, basedOn, natural, favIds), last);
    } else {
      assert a + b == a;
    }
  }

  /** Every recommendation comes from one of the tracks: it is that track's
      local match and carries that track's match value. */
  lemma {:induction false} TrackRecsSound(tracks: seq<SimilarTrack>, basedOn: string, natural: seq<Song>, favIds: set<SongId>)
    ensures forall c :: c in TrackRecs(tracks, basedOn, natural, favIds) ==>
              exists t :: t in tracks && FindOne(natural, t) == Some(c.song) && c.matchScore == Some(t.matchValue)
    decreases |tracks|
  {
    if tracks != [] {
      var init, last := tracks[..|tracks| - 1], tracks[|tracks| - 1];
      TrackRecsSound(init, basedOn, natural, favIds);
      forall c | c in TrackRecs(tracks, basedOn, natural, favIds)
        ensures exists t :: t in tracks && FindOne(natural, t) == Some(c.song) && c.matchScore == Some(t.matchValue)
      {
        if c in TrackRecs(init, basedOn, natural, favIds) {
          var t :| t in init && FindOne(natural, t) == Some(c.song) && c.matchScore == Some(t.matchValue);
          assert t in tracks;
        } else {
          assert c in TrackRec(last, basedOn, natural, favIds);
          assert last in tracks;
        }
      }
    }
  }

  /** What one favourite contributes; a provider failure contributes nothing. */
  function FavoriteRecs(fav: Favorite, natural: seq<Song>, favIds: set<SongId>, provider: SimilarProvider): (r: seq<Candidate>)
    ensures forall c :: c in r ==> c.recType == SimilarSaved && c.song in natural && c.song.id !in favIds
    ensures fav.song.None? ==> r == []
    ensures fav.song.Some? && provider(fav.song.value.title, fav.song.value.artist).None? ==> r == []
    ensures fav.song.Some? && provider(fav.song.value.title, fav.song.value.artist).Some? ==>
              var title := fav.song.value.title;
              forall t :: t in provider(title, fav.song.value.artist).value
                          && FindOne(natural, t).Some? && FindOne(natural, t).value.id !in favIds ==>
                Candidate(FindOne(natural, t).value, SimilarSaved, Some(title), Some(t.matchValue)) in r
  {
    match fav.song
    case None => []
    case Some(s) =>
      match provider(s.title, s.artist)
      case None => []
      case Some(tracks) => TrackRecs(tracks, s.title, natural, favIds)
  }

  /** Every contribution of a favourite is the local match of one of its
      similar tracks, based on its title and scored with that track's match
      value. */
  lemma FavoriteRecsSound(fav: Favorite, natural: seq<Song>, favIds: set<SongId>, provider: SimilarProvider)
    ensures forall c :: c in FavoriteRecs(fav, natural, favIds, provider) ==>
              fav.song.Some? && provider(fav.song.value.title, fav.song.value.artist).Some?
              && c.basedOn == Some(fav.song.value.title)
              && exists t :: t in provider(fav.song.value.title, fav.song.value.artist).value
                             && FindOne(natural, t) == Some(c.song) && c.matchScore == Some(t.matchValue)
  {
    if fav.song.Some? && provider(fav.song.value.title, fav.song.value.artist).Some? {
      var s := fav.song.value;
      TrackRecsSound(provider(s.title, s.artist).value, s.title, natural, favIds);
    }
  }

  /** Step 3 over a list of favourites, in order. */
  function SimilarFrom(favs: seq<Favorite>, natural: seq<Song>, favIds: set<SongId>, provider: SimilarProvider): (r: seq<Candidate>)
    ensures forall c :: c in r ==> c.recType == SimilarSaved && c.song in natural && c.song.id !in favIds
    ensures forall f, c :: f in favs && c in FavoriteRecs(f, natural, favIds, provider) ==> c in r
  {
    if favs == [] then []
    else SimilarFrom(favs[..|favs| - 1], natural, favIds, provider) + FavoriteRecs(favs[|favs| - 1], natural, favIds, provider)
  }

  /** The bucket is each favourite's contribution in favourite order. */
  lemma {:induction false} SimilarFromAppend(a: seq<Favorite>, b: seq<Favorite>, natural: seq<Song>, favIds: set<SongId>, provider: SimilarProvider)
    ensures SimilarFrom(a + b, natural, favIds, provider) == SimilarFrom(a, natural, favIds, provider) + SimilarFrom(b, natural, favIds, provider)
    decreases |b|
  {
    if b != [] {
      var bi := b[..|b| - 1];
      var last := FavoriteRecs(b[|b| - 1], natural, favIds, provider);
      SimilarFromAppend(a, bi, natural, favIds, provider);
      assert (a + b)[..|a + b| - 1] == a + bi;
      assert (a + b)[|a + b| - 1] == b[|b| - 1];
      assert SimilarFrom(a + b, natural, favIds, provider) == SimilarFrom(a + bi, natural, favIds, provider) + last;
      AppendAssoc(SimilarFrom(a, natural, favIds, provider), SimilarFrom(bi, natural, favIds, provider), last);
    } else {
      assert a + b == a;
    }
  }

  /** The inner loop for one favourite: look every similar track up locally. */
  method LookupTracks(tracks: seq<SimilarTrack>, basedOn: string, natural: seq<Song>, favIds: set<SongId>)
    returns (recs: seq<Candidate>)
    ensures recs == TrackRecs(tracks, basedOn, natural, favIds)
  {
    recs := [];
    var j := 0;
    while j < |tracks|
      invariant 0 <= j <= |tracks|
      invariant recs == TrackRecs(tracks[..j], basedOn, natural, favIds)
    {
      assert tracks[..j + 1][..j] == tracks[..j];
      var found := FindOne(natural, tracks[j]);
      if found.Some? && found.value.id !in favIds {
        recs := recs + [Candidate(found.value, SimilarSaved, Some(basedOn), Some(tracks[j].matchValue))];
      }
      j := j + 1;
    }
    assert tracks[..|tracks|] == tracks;
  }

  /** The similar-to-saved loop: for each of the first five favourites, ask the
      provider and keep the local, non-favourite match of every similar track. */
  method SimilarCandidates(favorites: seq<Favorite>, natural: seq<Song>, favIds: set<SongId>, provider: SimilarProvider)
    returns (recs: seq<Candidate>)
    ensures recs == SimilarFrom(Take(favorites, SimilarSources), natural, favIds, provider)
    ensures forall c :: c in recs ==> c.recType == SimilarSaved && c.song.id !in favIds
  {
    recs := [];
    if |favorites| > 0 {
      var sources := Take(favorites, SimilarSources);
      var i := 0;
      while i < |sources|
        invariant 0 <= i <= |sources|
        invariant recs == SimilarFrom(sources[..i], natural, favIds, provider)
      {
        var fav := sources[i];
        assert sources[..i + 1][..i] == sources[..i];
        if fav.song.Some? {
          var song := fav.song.value;
          var reply := provider(song.title, song.artist);
          if reply.Some? {
            var found := LookupTracks(reply.value, song.title, natural, favIds);
            recs := recs + found;
          }
        }
        assert recs == SimilarFrom(sources[..i + 1], natural, favIds, provider);
        i := i + 1;
      }
      assert sources[..|sources|] == sources;
    }
  }
}
