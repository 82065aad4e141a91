/** The snapshot scorer (server/src/utils/songsnapshot.js): seven per-field
    maxima over the song collection, a weighted popularity score per song and
    one `SongSnapshot` record per song, all sharing the snapshot id. The clock
    that names the snapshot is an input, and so is the set of songs whose
    record write throws. */
module Snapshots {
  import opened Common

  datatype Signal = Counter | Popularity | LastfmPlaycount | LastfmListeners | MusicbrainzRating | YoutubeViews | YoutubeLikes

  /** The scored fields of a song document; a missing field is `None`. */
  datatype SongSignals = SongSignals(
    id: string,
    counter: Option<real>,
    popularity: Option<real>,
    lastfmPlaycount: Option<real>,
    lastfmListeners: Option<real>,
    musicbrainzRating: Option<real>,
    youtubeViews: Option<real>,
    youtubeLikes: Option<real>)

  datatype SnapshotRecord = SnapshotRecord(songId: string, counter: real, score: real, snapshotId: string)

  function Field(s: SongSignals, k: Signal): Option<real>
  {
    match k
    case Counter => s.counter
    case Popularity => s.popularity
    case LastfmPlaycount => s.lastfmPlaycount
    case LastfmListeners => s.lastfmListeners
    case MusicbrainzRating => s.musicbrainzRating
    case YoutubeViews => s.youtubeViews
    case YoutubeLikes => s.youtubeLikes
  }

  /** `song.field || 0`. */
  function Value(s: SongSignals, k: Signal): real
  {
    if Field(s, k).Some? then Field(s, k).value else 0.0
  }

  function Weight(k: Signal): real
  {
    match k
    case Counter => 0.3
    case Popularity => 0.2
    case _ => 0.1
  }

  /** The largest present value of a field, as a descending sort puts first
      (documents without the field sort after every number). */
  function Largest(songs: seq<SongSignals>, k: Signal): Option<real>
  {
    if songs == [] then None
    else
      var rest := Largest(songs[1..], k);
      var here := Field(songs[0], k);
      if here.None? then rest
      else if rest.None? || rest.value <= here.value then here
      else rest
  }

  /** `Largest` is absent exactly when no song has the field, and otherwise
      is some song's value that no other song's value exceeds. */
  lemma {:induction false} LargestIsMaximum(songs: seq<SongSignals>, k: Signal)
    ensures Largest(songs, k).None? <==> forall s :: s in songs ==> Field(s, k).None?
    ensures Largest(songs, k).Some? ==>
              (exists s :: s in songs && Field(s, k) == Largest(songs, k))
              && forall s :: s in songs && Field(s, k).Some? ==> Field(s, k).value <= Largest(songs, k).value
  {
    if songs != [] {
      LargestIsMaximum(songs[1..], k);
      assert forall s :: s in songs ==> s == songs[0] || s in songs[1..];
      assert songs[0] in songs;
      assert forall s :: s in songs[1..] ==> s in songs;
    }
  }

  /** `findOne().sort({field: -1}) ... || 1`: the largest value, or 1 when it
      is missing or 0. A positive largest value below 1 is kept. */
  function MaxOf(songs: seq<SongSignals>, k: Signal): (r: real)
    ensures r != 0.0
  {
    var m := Largest(songs, k);
    if m.Some? && m.value != 0.0 then m.value else 1.0
  }

  /** The divisor is the largest value when that is non-zero, and 1 when no
      song has the field or its largest value is 0. */
  lemma MaxOfFallback(songs: seq<SongSignals>, k: Signal)
    ensures Largest(songs, k).Some? && Largest(songs, k).value != 0.0 ==> MaxOf(songs, k) == Largest(songs, k).value
    ensures Largest(songs, k).None? || Largest(songs, k) == Some(0.0) ==> MaxOf(songs, k) == 1.0
  {
  }

  /** The seven maxima of one pass. */
  datatype Maxima = Maxima(counter: real, popularity: real, playcount: real, listeners: real, rating: real, views: real, likes: real)

  function MaxFor(m: Maxima, k: Signal): real
  {
    match k
    case Counter => m.counter
    case Popularity => m.popularity
    case LastfmPlaycount => m.playcount
    case LastfmListeners => m.listeners
    case MusicbrainzRating => m.rating
    case YoutubeViews => m.views
    case YoutubeLikes => m.likes
  }

  predicate NoZeroMax(m: Maxima)
  {
    m.counter != 0.0 && m.popularity != 0.0 && m.playcount != 0.0 && m.listeners != 0.0
    && m.rating != 0.0 && m.views != 0.0 && m.likes != 0.0
  }

  function MaximaOf(songs: seq<SongSignals>): (m: Maxima)
    ensures NoZeroMax(m)
    ensures forall k :: MaxFor(m, k) == MaxOf(songs, k)
  {
    Maxima(MaxOf(songs, Counter), MaxOf(songs, Popularity), MaxOf(songs, LastfmPlaycount),
           MaxOf(songs, LastfmListeners), MaxOf(songs, MusicbrainzRating), MaxOf(songs, YoutubeViews),
           MaxOf(songs, YoutubeLikes))
  }

  /** One signal's share of the score. */
  function Part(s: SongSignals, m: Maxima, k: Signal): real
    requires NoZeroMax(m)
  {
    Value(s, k) / MaxFor(m, k) * Weight(k)
  }

  /** The weighted popularity score of one song; a song with every signal
      missing scores zero. */
  function Score(s: SongSignals, m: Maxima): (r: real)
    requires NoZeroMax(m)
    ensures (forall k :: Field(s, k).None?) ==> r == 0.0
  {
    BlankParts(s, m);
    Part(s, m, Counter) + Part(s, m, Popularity) + Part(s, m, LastfmPlaycount) + Part(s, m, LastfmListeners)
    + Part(s, m, MusicbrainzRating) + Part(s, m, YoutubeViews) + Part(s, m, YoutubeLikes)
  }

  /** The seven weights add up to one. */
  lemma WeightsSumToOne()
    ensures Weight(Counter) + Weight(Popularity) + Weight(LastfmPlaycount) + Weight(LastfmListeners)
            + Weight(MusicbrainzRating) + Weight(YoutubeViews) + Weight(YoutubeLikes) == 1.0
  {
  }

  predicate NonNegative(s: SongSignals)
  {
    forall k :: Field(s, k).Some? ==> Field(s, k).value >= 0.0
  }

  lemma RatioInUnit(v: real, m: real)
    requires 0.0 <= v <= m && m > 0.0
    ensures 0.0 <= v / m <= 1.0
  {
    assert v / m * m == v;
  }

  /** For a song of the collection, each ratio value/max lies in [0, 1]. */
  lemma PartBounds(songs: seq<SongSignals>, s: SongSignals, k: Signal)
    requires s in songs && forall t :: t in songs ==> NonNegative(t)
    ensures 0.0 <= Value(s, k) / MaxOf(songs, k) <= 1.0
  {
    var l := Largest(songs, k);
    LargestIsMaximum(songs, k);
    if Field(s, k).Some? {
      assert l.Some? && Field(s, k).value <= l.value;
      var w :| w in songs && Field(w, k) == l;
      assert NonNegative(w);
      if l.value == 0.0 {
        assert Value(s, k) == 0.0;
      } else {
        RatioInUnit(Value(s, k), l.value);
      }
    } else {
      assert Value(s, k) == 0.0;
    }
  }

  /** With non-negative signals every score of the pass lies in [0, 1]. */
  lemma ScoreInUnit(songs: seq<SongSignals>, s: SongSignals)
    requires s in songs && forall t :: t in songs ==> NonNegative(t)
    ensures 0.0 <= Score(s, MaximaOf(songs)) <= 1.0
  {
    var m := MaximaOf(songs);
    forall k ensures 0.0 <= Part(s, m, k) <= Weight(k) {
      PartBounds(songs, s, k);
      assert Part(s, m, k) == Value(s, k) / MaxOf(songs, k) * Weight(k);
    }
    WeightsSumToOne();
  }

  lemma DivSelf(x: real)
    requires x != 0.0
    ensures x / x == 1.0
  {
  }

  lemma DivZero(x: real)
    requires x != 0.0
    ensures 0.0 / x == 0.0
  {
  }

  /** A song holding every maximum scores exactly one. */
  lemma ScoreAtMaxima(songs: seq<SongSignals>, s: SongSignals)
    requires forall k :: Value(s, k) == MaxOf(songs, k)
    ensures Score(s, MaximaOf(songs)) == 1.0
  {
    var m := MaximaOf(songs);
    forall k ensures Part(s, m, k) == Weight(k) {
      DivSelf(MaxFor(m, k));
    }
    WeightsSumToOne();
  }

  /** A missing signal contributes nothing. */
  lemma BlankParts(s: SongSignals, m: Maxima)
    requires NoZeroMax(m)
    ensures forall k :: Field(s, k).None? ==> Part(s, m, k) == 0.0
  {
    forall k | Field(s, k).None? ensures Part(s, m, k) == 0.0 {
      assert Value(s, k) == 0.0;
      DivZero(MaxFor(m, k));
    }
  }

  /** The record written for one song. */
  function RecordOf(s: SongSignals, m: Maxima, snapshotId: string): SnapshotRecord
    requires NoZeroMax(m)
  {
    SnapshotRecord(s.id, Value(s, Counter), Score(s, m), snapshotId)
  }

  /** The records of a pass over `songs`, one per song, in order. */
  function Records(songs: seq<SongSignals>, m: Maxima, snapshotId: string): (r: seq<SnapshotRecord>)
    requires NoZeroMax(m)
    ensures |r| == |songs|
    ensures forall j :: 0 <= j < |r| ==> r[j] == RecordOf(songs[j], m, snapshotId)
  {
    seq(|songs|, j requires 0 <= j < |songs| => RecordOf(songs[j], m, snapshotId))
  }

  /** `createSnapshot`: compute the maxima, then write one record per song;
      the first write that throws (an index in `failing`) ends the pass. */
  method CreateSnapshot(songs: seq<SongSignals>, snapshotId: string, failing: set<nat>)
    returns (written: seq<SnapshotRecord>, aborted: bool)
    ensures |written| <= |songs|
    ensures written == Records(songs[..|written|], MaximaOf(songs), snapshotId)
    ensures forall j :: 0 <= j < |written| ==> j !in failing
    ensures aborted <==> |written| < |songs|
    ensures aborted ==> |written| in failing
  {
    var m := MaximaOf(songs);
    written := [];
    aborted := false;
    var i := 0;
    while i < |songs|
      invariant 0 <= i <= |songs|
      invariant written == Records(songs[..i], m, snapshotId)
      invariant forall j :: 0 <= j < i ==> j !in failing
    {
      if i in failing {
        aborted := true;
        return;
      }
      written := written + [RecordOf(songs[i], m, snapshotId)];
      i := i + 1;
    }
    assert songs[..i] == songs;
  }

  /** All records of one pass carry its snapshot id and `counter || 0`. */
  lemma RecordsShareId(songs: seq<SongSignals>, m: Maxima, snapshotId: string)
    requires NoZeroMax(m)
    ensures forall r :: r in Records(songs, m, snapshotId) ==> r.snapshotId == snapshotId
    ensures forall j :: 0 <= j < |songs| ==>
              Records(songs, m, snapshotId)[j].songId == songs[j].id
              && Records(songs, m, snapshotId)[j].counter == Value(songs[j], Counter)
  {
  }
}
