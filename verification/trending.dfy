/** The trend routes (server/src/routes/popular.js): pick two snapshot passes,
    join them by song id, and answer either the ten most popular songs of the
    latest pass (when nothing moved) or the five biggest movers followed by
    the five best-scoring remaining songs. The snapshot collection and the
    list of distinct snapshot ids are inputs. */
module Trending {
  import opened Common
  import opened Snapshots

  /** One row of `changes`. */
  datatype Change = Change(songId: string, previousScore: real, currentScore: real, delta: real)

  /** One row of the fallback answer. */
  datatype ScoreRow = ScoreRow(songId: string, currentScore: real)

  datatype TrendResult =
    | NotEnoughSnapshots
    | Popular(rows: seq<ScoreRow>)
    | Movers(topDelta: seq<Change>, topScore: seq<Change>)

  const FallbackSize: nat := 10
  const MoverSize: nat := 5
  const WeekSpan: nat := 7

  function Abs(x: real): real { if x < 0.0 then -x else x }

  // ---------------------------------------------------------------------
  // A stable descending sort, as `Array.prototype.sort` with the comparator
  // `(a, b) => key(b) - key(a)` orders
  // ---------------------------------------------------------------------

  /** Insert `x` before the first element whose key is not larger. */
  function Insert<T>(x: T, s: seq<T>, key: T -> real): (r: seq<T>)
    ensures multiset(r) == multiset(s) + multiset{x}
    ensures |r| == |s| + 1
  {
    if s == [] || key(x) >= key(s[0]) then [x] + s
    else
      assert s == [s[0]] + s[1..];
      [s[0]] + Insert(x, s[1..], key)
  }

  function SortDesc<T>(s: seq<T>, key: T -> real): (r: seq<T>)
    ensures multiset(r) == multiset(s)
    ensures |r| == |s|
  {
    if s == [] then []
    else
      assert s == [s[0]] + s[1..];
      Insert(s[0], SortDesc(s[1..], key), key)
  }

  predicate SortedDesc<T>(s: seq<T>, key: T -> real)
  {
    forall i, j :: 0 <= i < j < |s| ==> key(s[i]) >= key(s[j])
  }

  /** Inserting adds `x` and nothing else. */
  lemma InsertElems<T>(x: T, s: seq<T>, key: T -> real)
    ensures forall y :: y in Insert(x, s, key) ==> y == x || y in s
  {
    forall y | y in Insert(x, s, key) ensures y == x || y in s {
      assert y in multiset(Insert(x, s, key));
    }
  }

  lemma {:induction false} InsertSorted<T>(x: T, s: seq<T>, key: T -> real)
    requires SortedDesc(s, key)
    ensures SortedDesc(Insert(x, s, key), key)
    decreases |s|
  {
    if s == [] || key(x) >= key(s[0]) {
    } else {
      InsertSorted(x, s[1..], key);
      InsertElems(x, s[1..], key);
      var rest := Insert(x, s[1..], key);
      forall j | 0 <= j < |rest| ensures key(s[0]) >= key(rest[j]) {
        assert rest[j] in rest;
        if rest[j] != x {
          var m :| 0 <= m < |s[1..]| && s[1..][m] == rest[j];
          assert s[m + 1] == rest[j];
        }
      }
    }
  }

  /** The sort orders by key, largest first. */
  lemma {:induction false} SortDescSorted<T>(s: seq<T>, key: T -> real)
    ensures SortedDesc(SortDesc(s, key), key)
    decreases |s|
  {
    if s != [] {
      SortDescSorted(s[1..], key);
      InsertSorted(s[0], SortDesc(s[1..], key), key);
    }
  }

  /** The elements whose key equals `k`, in order. */
  function WithKey<T>(s: seq<T>, key: T -> real, k: real): seq<T>
  {
    if s == [] then []
    else Keyed(s[0], key, k) + WithKey(s[1..], key, k)
  }

  /** `[x]` when `x` has key `k`, otherwise nothing. */
  function Keyed<T>(x: T, key: T -> real, k: real): seq<T>
  {
    if key(x) == k then [x] else []
  }

  lemma WithKeyCons<T>(x: T, s: seq<T>, key: T -> real, k: real)
    ensures WithKey([x] + s, key, k) == Keyed(x, key, k) + WithKey(s, key, k)
  {
    assert ([x] + s)[0] == x && ([x] + s)[1..] == s;
  }

  lemma {:induction false} InsertStable<T>(x: T, s: seq<T>, key: T -> real, k: real)
    ensures WithKey(Insert(x, s, key), key, k) == Keyed(x, key, k) + WithKey(s, key, k)
    decreases |s|
  {
    if s == [] || key(x) >= key(s[0]) {
      WithKeyCons(x, s, key, k);
    } else {
      var tail := s[1..];
      assert s == [s[0]] + tail;
      var rest := Insert(x, tail, key);
      assert Insert(x, s, key) == [s[0]] + rest;
      InsertStable(x, tail, key, k);
      WithKeyCons(s[0], rest, key, k);
      WithKeyCons(s[0], tail, key, k);
      var a, b, w := Keyed(s[0], key, k), Keyed(x, key, k), WithKey(tail, key, k);
      assert a == [] || b == [];
      assert a + (b + w) == b + (a + w) by {
        if a == [] {
          assert a + (b + w) == b + w && a + w == w;
        } else {
          assert b + (a + w) == a + w && b + w == w;
        }
      }
    }
  }

  /** The sort is stable: elements with equal keys keep their input order. */
  lemma {:induction false} SortDescStable<T>(s: seq<T>, key: T -> real, k: real)
    ensures WithKey(SortDesc(s, key), key, k) == WithKey(s, key, k)
    decreases |s|
  {
    if s != [] {
      SortDescStable(s[1..], key, k);
      InsertStable(s[0], SortDesc(s[1..], key), key, k);
    }
  }

  // ---------------------------------------------------------------------
  // The join
  // ---------------------------------------------------------------------

  /** `prevMap.get(id)`: a `Map` built from the previous pass keeps the last
      score given for an id. */
  function PrevScore(previous: seq<SnapshotRecord>, id: string): (r: Option<real>)
    ensures r.None? <==> forall p :: p in previous ==> p.songId != id
    ensures r.Some? ==> exists j :: 0 <= j < |previous| && previous[j].songId == id && previous[j].score == r.value
                                    && forall l :: j < l < |previous| ==> previous[l].songId != id
  {
    if previous == [] then None
    else if previous[|previous| - 1].songId == id then Some(previous[|previous| - 1].score)
    else
      var r := PrevScore(previous[..|previous| - 1], id);
      assert forall p :: p in previous ==> p == previous[|previous| - 1] || p in previous[..|previous| - 1];
      r
  }

  /** The change row of one latest record, when the previous pass has its id. */
  function ChangeOf(s: SnapshotRecord, previous: seq<SnapshotRecord>): seq<Change>
  {
    match PrevScore(previous, s.songId)
    case None => []
    case Some(prev) => [Change(s.songId, prev, s.score, s.score - prev)]
  }

  /** `changes`: one row per latest record whose id the previous pass has. */
  function Changes(latest: seq<SnapshotRecord>, previous: seq<SnapshotRecord>): (r: seq<Change>)
    ensures |r| <= |latest|
  {
    if latest == [] then []
    else Changes(latest[..|latest| - 1], previous) + ChangeOf(latest[|latest| - 1], previous)
  }

  /** Every change row joins a latest record with the previous score of its
      id, and its delta is current minus previous. */
  lemma {:induction false} ChangesSound(latest: seq<SnapshotRecord>, previous: seq<SnapshotRecord>)
    ensures forall c :: c in Changes(latest, previous) ==>
              c.delta == c.currentScore - c.previousScore
              && PrevScore(previous, c.songId) == Some(c.previousScore)
              && exists j :: 0 <= j < |latest| && latest[j].songId == c.songId && latest[j].score == c.currentScore
    decreases |latest|
  {
    if latest != [] {
      var n := |latest| - 1;
      var init := latest[..n];
      ChangesSound(init, previous);
      forall c | c in Changes(latest, previous)
        ensures exists j :: 0 <= j < |latest| && latest[j].songId == c.songId && latest[j].score == c.currentScore
      {
        if c in Changes(init, previous) {
          var j :| 0 <= j < |init| && init[j].songId == c.songId && init[j].score == c.currentScore;
          assert latest[j] == init[j];
        } else {
          assert c in ChangeOf(latest[n], previous);
        }
      }
    }
  }

  /** Every latest record whose id the previous pass has gets its change row. */
  lemma {:induction false} ChangesComplete(latest: seq<SnapshotRecord>, previous: seq<SnapshotRecord>)
    ensures forall s, prev :: s in latest && PrevScore(previous, s.songId) == Some(prev) ==>
              Change(s.songId, prev, s.score, s.score - prev) in Changes(latest, previous)
    decreases |latest|
  {
    if latest != [] {
      var init := latest[..|latest| - 1];
      ChangesComplete(init, previous);
      assert forall s :: s in latest ==> s == latest[|latest| - 1] || s in init;
    }
  }

  /** `changes.every(c => c.delta === 0)`, true of no rows. */
  predicate AllZero(changes: seq<Change>)
  {
    forall c :: c in changes ==> c.delta == 0.0
  }

  function Score(s: SnapshotRecord): real { s.score }
  function AbsDelta(c: Change): real { Abs(c.delta) }
  function Current(c: Change): real { c.currentScore }

  function ScoreRowOf(s: SnapshotRecord): ScoreRow { ScoreRow(s.songId, s.score) }

  function ScoreRows(s: seq<SnapshotRecord>): (r: seq<ScoreRow>)
    ensures |r| == |s|
    ensures forall j :: 0 <= j < |s| ==> r[j] == ScoreRowOf(s[j])
  {
    seq(|s|, j requires 0 <= j < |s| => ScoreRowOf(s[j]))
  }

  function Ids(s: seq<Change>): set<string>
  {
    set c | c in s :: c.songId
  }

  function NotIn(s: seq<Change>, ids: set<string>): (r: seq<Change>)
    ensures forall c :: c in r <==> c in s && c.songId !in ids
  {
    if s == [] then []
    else (if s[0].songId in ids then [] else [s[0]]) + NotIn(s[1..], ids)
  }

  /** The fallback: the ten best latest records by score. */
  function PopularRows(latest: seq<SnapshotRecord>): (r: seq<ScoreRow>)
    ensures |r| == Min(|latest|, FallbackSize)
  {
    ScoreRows(Take(SortDesc(latest, Score), FallbackSize))
  }

  /** `topDelta`: the five largest |delta| rows. */
  function TopDelta(changes: seq<Change>): (r: seq<Change>)
    ensures |r| == Min(|changes|, MoverSize)
  {
    Take(SortDesc(changes, AbsDelta), MoverSize)
  }

  /** `topScore`: the five best current scores among the ids not in
      `topDelta`. `changes.sort` has already reordered the rows by |delta| in
      place, so equal scores keep that order. */
  function TopScore(changes: seq<Change>): (r: seq<Change>)
    ensures |r| == Min(|NotIn(SortDesc(changes, AbsDelta), Ids(TopDelta(changes)))|, MoverSize)
  {
    Take(SortDesc(NotIn(SortDesc(changes, AbsDelta), Ids(TopDelta(changes))), Current), MoverSize)
  }

  /** The comparison of two passes, shared by both routes. */
  function TrendBetween(latest: seq<SnapshotRecord>, previous: seq<SnapshotRecord>): (r: TrendResult)
    ensures !r.NotEnoughSnapshots?
    ensures r.Popular? <==> AllZero(Changes(latest, previous))
  {
    var changes := Changes(latest, previous);
    if AllZero(changes) then Popular(PopularRows(latest))
    else Movers(TopDelta(changes), TopScore(changes))
  }

  lemma TakeSorted<T>(s: seq<T>, key: T -> real, n: nat)
    requires SortedDesc(s, key)
    ensures SortedDesc(Take(s, n), key)
  {
  }

  /** The fallback rows are the best-scoring latest records, best first. */
  lemma PopularRowsSorted(latest: seq<SnapshotRecord>)
    ensures var rows := PopularRows(latest);
            (forall i, j :: 0 <= i < j < |rows| ==> rows[i].currentScore >= rows[j].currentScore)
            && (forall row :: row in rows ==> exists s :: s in latest && ScoreRowOf(s) == row)
  {
    var sorted := SortDesc(latest, Score);
    var rows := PopularRows(latest);
    SortDescSorted(latest, Score);
    forall row | row in rows ensures exists s :: s in latest && ScoreRowOf(s) == row {
      var i :| 0 <= i < |rows| && rows[i] == row;
      assert sorted[i] in multiset(latest);
    }
  }

  /** No latest record left out of the fallback scores higher than the last
      row listed. */
  lemma PopularRowsTop(latest: seq<SnapshotRecord>)
    requires |latest| > FallbackSize
    ensures forall s :: s in latest && ScoreRowOf(s) !in PopularRows(latest) ==>
              s.score <= PopularRows(latest)[FallbackSize - 1].currentScore
  {
    var sorted := SortDesc(latest, Score);
    var rows := PopularRows(latest);
    SortDescSorted(latest, Score);
    forall s | s in latest && ScoreRowOf(s) !in rows ensures s.score <= rows[FallbackSize - 1].currentScore {
      assert s in multiset(sorted);
      var m :| 0 <= m < |sorted| && sorted[m] == s;
      assert rows[FallbackSize - 1] == ScoreRowOf(sorted[FallbackSize - 1]);
    }
  }

  /** `topDelta` is ordered by |delta|, comes from the changes, and no change
      left out has a larger |delta| than one listed. */
  lemma TopDeltaTop(changes: seq<Change>)
    ensures var top := TopDelta(changes);
            SortedDesc(top, AbsDelta)
            && (forall c :: c in top ==> c in changes)
            && (forall c, d :: c in changes && c !in top && d in top ==> Abs(d.delta) >= Abs(c.delta))
  {
    var sorted := SortDesc(changes, AbsDelta);
    var top := TopDelta(changes);
    SortDescSorted(changes, AbsDelta);
    TakeSorted(sorted, AbsDelta, MoverSize);
    forall c | c in top ensures c in changes {
      assert c in multiset(sorted);
    }
    forall c, d | c in changes && c !in top && d in top ensures Abs(d.delta) >= Abs(c.delta) {
      assert c in multiset(sorted);
      var j :| 0 <= j < |sorted| && sorted[j] == c;
      var i :| 0 <= i < |top| && top[i] == d;
      assert j >= |top|;
    }
  }

  /** `topScore` is ordered by current score, comes from the changes, and
      shares no song id with `topDelta`. */
  lemma TopScoreApart(changes: seq<Change>)
    ensures var top := TopScore(changes);
            SortedDesc(top, Current)
            && (forall c :: c in top ==> c in changes && c.songId !in Ids(TopDelta(changes)))
            && Ids(top) !! Ids(TopDelta(changes))
  {
    var byDelta := SortDesc(changes, AbsDelta);
    var rest := NotIn(byDelta, Ids(TopDelta(changes)));
    var sorted := SortDesc(rest, Current);
    SortDescSorted(rest, Current);
    TakeSorted(sorted, Current, MoverSize);
    forall c | c in TopScore(changes) ensures c in changes && c.songId !in Ids(TopDelta(changes)) {
      assert c in multiset(sorted);
      assert c in rest;
      assert c in multiset(byDelta);
    }
  }

  /** No change outside `topDelta` that `topScore` leaves out has a better
      current score than one it lists. */
  lemma TopScoreTop(changes: seq<Change>)
    ensures var top := TopScore(changes);
            forall c, d :: c in changes && c.songId !in Ids(TopDelta(changes)) && c !in top && d in top ==>
              d.currentScore >= c.currentScore
  {
    var byDelta := SortDesc(changes, AbsDelta);
    var rest := NotIn(byDelta, Ids(TopDelta(changes)));
    var sorted := SortDesc(rest, Current);
    var top := TopScore(changes);
    SortDescSorted(rest, Current);
    forall c, d | c in changes && c.songId !in Ids(TopDelta(changes)) && c !in top && d in top
      ensures d.currentScore >= c.currentScore
    {
      assert c in multiset(byDelta);
      assert c in rest;
      assert c in multiset(sorted);
      var j :| 0 <= j < |sorted| && sorted[j] == c;
      var i :| 0 <= i < |top| && top[i] == d;
      assert j >= |top|;
      assert Current(sorted[i]) >= Current(sorted[j]);
    }
  }

  /** The answer never has more than ten rows; a movers answer has a non-zero
      delta and no song id among both lists. */
  lemma TrendBetweenBounded(latest: seq<SnapshotRecord>, previous: seq<SnapshotRecord>)
    ensures match TrendBetween(latest, previous)
            case NotEnoughSnapshots => false
            case Popular(rows) => |rows| <= FallbackSize && AllZero(Changes(latest, previous))
            case Movers(topDelta, topScore) =>
              |topDelta| + |topScore| <= FallbackSize && Ids(topDelta) !! Ids(topScore)
              && exists c :: c in Changes(latest, previous) && c.delta != 0.0
  {
    TopScoreApart(Changes(latest, previous));
  }

  // ---------------------------------------------------------------------
  // The two routes
  // ---------------------------------------------------------------------

  /** `SongSnapshot.find({ snapshotId })`. */
  function Pass(records: seq<SnapshotRecord>, id: string): (r: seq<SnapshotRecord>)
    ensures forall s :: s in r <==> s in records && s.snapshotId == id
  {
    if records == [] then []
    else (if records[0].snapshotId == id then [records[0]] else []) + Pass(records[1..], id)
  }

  /** `GET /24h`: the last two distinct snapshot ids. */
  function Trend24h(snapshotIds: seq<string>, records: seq<SnapshotRecord>): (r: TrendResult)
    ensures r.NotEnoughSnapshots? <==> |snapshotIds| < 2
    ensures |snapshotIds| >= 2 ==>
              r == TrendBetween(Pass(records, snapshotIds[|snapshotIds| - 1]), Pass(records, snapshotIds[|snapshotIds| - 2]))
  {
    if |snapshotIds| < 2 then NotEnoughSnapshots
    else
      var latestId := snapshotIds[|snapshotIds| - 1];
      var previousId := snapshotIds[|snapshotIds| - 2];
      TrendBetween(Pass(records, latestId), Pass(records, previousId))
  }

  /** `GET /lastweek` as written: the 1st and 7th of the first seven ids. */
  function TrendLastWeek(snapshotIds: seq<string>, records: seq<SnapshotRecord>): (r: TrendResult)
    ensures r.NotEnoughSnapshots? <==> |snapshotIds| < WeekSpan
    ensures |snapshotIds| >= WeekSpan ==>
              r == TrendBetween(Pass(records, snapshotIds[WeekSpan - 1]), Pass(records, snapshotIds[0]))
  {
    if |snapshotIds| < WeekSpan then NotEnoughSnapshots
    else
      var firstSeven := snapshotIds[..WeekSpan];
      TrendBetween(Pass(records, firstSeven[WeekSpan - 1]), Pass(records, firstSeven[0]))
  }

  /** With the ids in ascending (time) order, `lastweek` never looks past the
      seventh snapshot: once seven exist, newer ones do not change it. */
  lemma LastWeekIgnoresNewer(snapshotIds: seq<string>, newer: seq<string>, records: seq<SnapshotRecord>)
    requires |snapshotIds| >= WeekSpan
    ensures TrendLastWeek(snapshotIds + newer, records) == TrendLastWeek(snapshotIds, records)
  {
    assert (snapshotIds + newer)[WeekSpan - 1] == snapshotIds[WeekSpan - 1];
    assert (snapshotIds + newer)[0] == snapshotIds[0];
  }

  /** The week comparison the route evidently intends: the latest id against
      the id six passes earlier, among the last seven. */
  function TrendLastWeekLatest(snapshotIds: seq<string>, records: seq<SnapshotRecord>): (r: TrendResult)
    ensures r.NotEnoughSnapshots? <==> |snapshotIds| < WeekSpan
    ensures |snapshotIds| >= WeekSpan ==>
              r == TrendBetween(Pass(records, snapshotIds[|snapshotIds| - 1]), Pass(records, snapshotIds[|snapshotIds| - WeekSpan]))
  {
    if |snapshotIds| < WeekSpan then NotEnoughSnapshots
    else
      var lastSeven := snapshotIds[|snapshotIds| - WeekSpan..];
      assert lastSeven[WeekSpan - 1] == snapshotIds[|snapshotIds| - 1];
      TrendBetween(Pass(records, lastSeven[WeekSpan - 1]), Pass(records, lastSeven[0]))
  }

  /** The corrected comparison follows a newly added snapshot. */
  lemma LastWeekLatestFollowsNewest(snapshotIds: seq<string>, newest: string, records: seq<SnapshotRecord>)
    requires |snapshotIds| >= WeekSpan
    ensures TrendLastWeekLatest(snapshotIds + [newest], records)
            == TrendBetween(Pass(records, newest), Pass(records, snapshotIds[|snapshotIds| - WeekSpan + 1]))
  {
    var ids := snapshotIds + [newest];
    assert ids[|ids| - 1] == newest;
    assert ids[|ids| - WeekSpan] == snapshotIds[|snapshotIds| - WeekSpan + 1];
  }
}
