/** The second half of the recommendation route (server/src/routes/users.js):
    `takeFromBucket`, the 10/10/10 first pass, the back-fill from leftovers up
    to 30, the final dedup pass, the per-type stats and the response. The
    result list and the seen-id set the route mutates through a closure are
    threaded through the methods as values. */
module Blender {
  import opened Common
  import opened Buckets
  import opened UserModel

  const TotalLimit: nat := 30
  /** `Math.floor(TOTAL_LIMIT / 3)`. */
  const PerBucket: nat := 10

  /** The three `continue` conditions of `takeFromBucket`. */
  predicate Skipped(c: Candidate, seen: set<SongId>, favIds: set<SongId>)
  {
    c.song.id == [] || c.song.id in favIds || c.song.id in seen
  }

  /** What `takeFromBucket(bucket, n, out, seen)` appends to `out`. */
  function Pick(bucket: seq<Candidate>, n: int, seen: set<SongId>, favIds: set<SongId>): (r: seq<Candidate>)
    ensures |r| <= |bucket|
    ensures if n <= 0 then r == [] else |r| <= n
    decreases |bucket|
  {
    if bucket == [] || n <= 0 then []
    else if Skipped(bucket[0], seen, favIds) then Pick(bucket[1..], n, seen, favIds)
    else [bucket[0]] + Pick(bucket[1..], n - 1, seen + {bucket[0].song.id}, favIds)
  }

  /** A pick takes only usable, unseen candidates of the bucket, each id once. */
  lemma {:induction false} PickSound(bucket: seq<Candidate>, n: int, seen: set<SongId>, favIds: set<SongId>)
    ensures var r := Pick(bucket, n, seen, favIds);
            (forall c :: c in r ==> c in bucket && !Skipped(c, seen, favIds)) && DistinctIds(r)
    decreases |bucket|
  {
    if bucket == [] || n <= 0 {
    } else if Skipped(bucket[0], seen, favIds) {
      PickSound(bucket[1..], n, seen, favIds);
    } else {
      var b := bucket[0];
      var rest := Pick(bucket[1..], n - 1, seen + {b.song.id}, favIds);
      PickSound(bucket[1..], n - 1, seen + {b.song.id}, favIds);
      assert forall c :: c in rest ==> c.song.id != b.song.id;
      DistinctAppend([b], rest);
    }
  }

  /** One step of the walk over `bucket[k..]`. */
  lemma PickStep(bucket: seq<Candidate>, k: nat, m: int, seen: set<SongId>, favIds: set<SongId>)
    requires k < |bucket|
    ensures Pick(bucket[k..], m, seen, favIds)
            == if m <= 0 then []
               else if Skipped(bucket[k], seen, favIds) then Pick(bucket[k + 1..], m, seen, favIds)
               else [bucket[k]] + Pick(bucket[k + 1..], m - 1, seen + {bucket[k].song.id}, favIds)
  {
    assert bucket[k..][0] == bucket[k] && bucket[k..][1..] == bucket[k + 1..];
  }

  /** The reference order of a bucket: each candidate whose id is non-blank,
      not a favourite, not in `seen` and not carried by an earlier entry of
      the bucket, in bucket order. */
  function FreshUsable(bucket: seq<Candidate>, seen: set<SongId>, favIds: set<SongId>): seq<Candidate>
    decreases |bucket|
  {
    if bucket == [] then []
    else
      (if Skipped(bucket[0], seen, favIds) then [] else [bucket[0]])
      + FreshUsable(bucket[1..], seen + {bucket[0].song.id}, favIds)
  }

  /** Excluding an id that is blank, a favourite or already excluded changes
      nothing. */
  lemma {:induction false} FreshUsableIgnores(bucket: seq<Candidate>, seen: set<SongId>, x: SongId, favIds: set<SongId>)
    requires x == [] || x in favIds || x in seen
    ensures FreshUsable(bucket, seen + {x}, favIds) == FreshUsable(bucket, seen, favIds)
    decreases |bucket|
  {
    if bucket != [] {
      var id := bucket[0].song.id;
      assert Skipped(bucket[0], seen + {x}, favIds) == Skipped(bucket[0], seen, favIds);
      FreshUsableIgnores(bucket[1..], seen + {id}, x, favIds);
      assert seen + {x} + {id} == seen + {id} + {x};
    }
  }

  /** `takeFromBucket` appends the first `n` entries of the reference list:
      the first usable occurrences, in bucket order. */
  lemma {:induction false} PickIsTakeOfFresh(bucket: seq<Candidate>, n: int, seen: set<SongId>, favIds: set<SongId>)
    ensures Pick(bucket, n, seen, favIds) == if n <= 0 then [] else Take(FreshUsable(bucket, seen, favIds), n)
    decreases |bucket|
  {
    if bucket != [] && n > 0 {
      var b, rest := bucket[0], bucket[1..];
      var seen' := seen + {b.song.id};
      if Skipped(b, seen, favIds) {
        FreshUsableIgnores(rest, seen, b.song.id, favIds);
        assert FreshUsable(bucket, seen, favIds) == FreshUsable(rest, seen, favIds);
        PickIsTakeOfFresh(rest, n, seen, favIds);
      } else {
        var later := FreshUsable(rest, seen', favIds);
        assert FreshUsable(bucket, seen, favIds) == [b] + later;
        PickIsTakeOfFresh(rest, n - 1, seen', favIds);
        TakeCons(b, later, n);
      }
    }
  }

  /** Everything before index `|Pick(..)|` of the bucket was picked or skipped,
      and when fewer than `n` were picked the whole bucket was. So a leftover
      list that starts at index `picked` loses no candidate. */
  lemma {:induction false} PickCovers(bucket: seq<Candidate>, n: int, seen: set<SongId>, favIds: set<SongId>)
    ensures var r := Pick(bucket, n, seen, favIds);
            (forall j :: 0 <= j < |r| ==> Skipped(bucket[j], seen + Ids(r), favIds))
            && (|r| < n ==> forall c :: c in bucket ==> Skipped(c, seen + Ids(r), favIds))
    decreases |bucket|
  {
    var r := Pick(bucket, n, seen, favIds);
    if bucket == [] || n <= 0 {
    } else if Skipped(bucket[0], seen, favIds) {
      PickCovers(bucket[1..], n, seen, favIds);
      assert forall j :: 0 < j < |bucket| ==> bucket[j] == bucket[1..][j - 1];
      assert forall c :: c in bucket ==> c == bucket[0] || c in bucket[1..];
    } else {
      var b := bucket[0];
      var rest := Pick(bucket[1..], n - 1, seen + {b.song.id}, favIds);
      PickCovers(bucket[1..], n - 1, seen + {b.song.id}, favIds);
      IdsCons(b, rest);
      assert seen + {b.song.id} + Ids(rest) == seen + Ids(r);
      assert forall j :: 0 < j < |bucket| ==> bucket[j] == bucket[1..][j - 1];
      assert forall c :: c in bucket ==> c == bucket[0] || c in bucket[1..];
    }
  }

  lemma IdsCons(c: Candidate, s: seq<Candidate>)
    ensures Ids([c] + s) == {c.song.id} + Ids(s)
  {
    IdsAppend([c], s);
    assert Ids([c]) == {c.song.id};
  }

  /** With at least `n` usable ids in the bucket, exactly `n` are picked. */
  lemma PickFull(bucket: seq<Candidate>, n: nat, seen: set<SongId>, favIds: set<SongId>)
    requires |Usable(bucket, seen + favIds)| >= n
    ensures |Pick(bucket, n, seen, favIds)| == n
  {
    var r := Pick(bucket, n, seen, favIds);
    if |r| < n {
      PickCovers(bucket, n, seen, favIds);
      PickSound(bucket, n, seen, favIds);
      assert Usable(bucket, seen + favIds) <= Ids(r);
      SubsetCard(Usable(bucket, seen + favIds), Ids(r));
      IdsCard(r);
      assert false;
    }
  }

  /** The non-empty ids of `s` outside `excluded`. */
  function Usable(s: seq<Candidate>, excluded: set<SongId>): set<SongId>
  {
    set c | c in s && c.song.id != [] && c.song.id !in excluded :: c.song.id
  }

  lemma SubsetCard<T>(a: set<T>, b: set<T>)
    requires a <= b
    ensures |a| <= |b|
  {
    assert b == a + (b - a);
  }

  /** A list with distinct ids has as many ids as entries. */
  lemma {:induction false} IdsCard(s: seq<Candidate>)
    requires DistinctIds(s)
    ensures |Ids(s)| == |s|
  {
    if s != [] {
      var t := s[1..];
      IdsCard(t);
      IdsAppend([s[0]], t);
      assert s == [s[0]] + t;
      assert Ids([s[0]]) == {s[0].song.id};
      assert s[0].song.id !in Ids(t);
    }
  }

  lemma DistinctAppend(a: seq<Candidate>, b: seq<Candidate>)
    requires DistinctIds(a) && DistinctIds(b)
    requires forall c :: c in b ==> c.song.id !in Ids(a)
    ensures DistinctIds(a + b)
  {
    forall i, j | 0 <= i < j < |a + b| ensures (a + b)[i].song.id != (a + b)[j].song.id {
      if i < |a| && j >= |a| {
        assert (a + b)[j] in b;
        assert (a + b)[i] in a;
      }
    }
  }

  /** Appending a taken candidate to the output moves it from the rest of
      the pick to the output. */
  lemma TakeStep(out: seq<Candidate>, seen: set<SongId>, c: Candidate, rest: seq<Candidate>)
    ensures out + ([c] + rest) == (out + [c]) + rest
    ensures seen + Ids([c] + rest) == (seen + {c.song.id}) + Ids(rest)
    ensures |[c] + rest| == 1 + |rest|
  {
    IdsCons(c, rest);
  }

  /** `takeFromBucket`: walk the bucket in order, stop once `n` were added,
      skip empty, favourite and already-seen ids, append the rest. */
  method TakeFromBucket(bucket: seq<Candidate>, n: int, out: seq<Candidate>, seen: set<SongId>, favIds: set<SongId>)
    returns (out': seq<Candidate>, seen': set<SongId>, added: nat)
    ensures out' == out + Pick(bucket, n, seen, favIds)
    ensures seen' == seen + Ids(Pick(bucket, n, seen, favIds))
    ensures added == |Pick(bucket, n, seen, favIds)|
  {
    ghost var total := Pick(bucket, n, seen, favIds);
    out', seen', added := out, seen, 0;
    var k := 0;
    ghost var left := n;
    ghost var rest := total;
    while k < |bucket|
      invariant 0 <= k <= |bucket|
      invariant left == n - added
      invariant rest == Pick(bucket[k..], left, seen', favIds)
      invariant out + total == out' + rest
      invariant seen + Ids(total) == seen' + Ids(rest)
      invariant |total| == added + |rest|
    {
      if added >= n {
        break;
      }
      var item := bucket[k];
      PickStep(bucket, k, left, seen', favIds);
      var id := item.song.id;
      if id == [] || id in favIds || id in seen' {
        k := k + 1;
        rest := Pick(bucket[k..], left, seen', favIds);
        continue;
      }
      var next := Pick(bucket[k + 1..], left - 1, seen' + {id}, favIds);
      TakeStep(out', seen', item, next);
      seen' := seen' + {id};
      out' := out' + [item];
      added := added + 1;
      k := k + 1;
      left := left - 1;
      rest := next;
    }
    assert rest == [] by {
      assert bucket[k..] == [] || left <= 0;
    }
  }

  /** The three first-pass picks of at most 10 each. */
  datatype FirstPass = FirstPass(explicit: seq<Candidate>, indirect: seq<Candidate>, similar: seq<Candidate>)
  {
    function All(): seq<Candidate> { explicit + indirect + similar }
    function Seen(): set<SongId> { Ids(explicit) + Ids(indirect) + Ids(similar) }
  }

  function First(e: seq<Candidate>, i: seq<Candidate>, s: seq<Candidate>, favIds: set<SongId>): (p: FirstPass)
    ensures |p.explicit| <= PerBucket && |p.indirect| <= PerBucket && |p.similar| <= PerBucket
    ensures |p.explicit| <= |e| && |p.indirect| <= |i| && |p.similar| <= |s|
  {
    var p1 := Pick(e, PerBucket, {}, favIds);
    var p2 := Pick(i, PerBucket, Ids(p1), favIds);
    FirstPass(p1, p2, Pick(s, PerBucket, Ids(p1) + Ids(p2), favIds))
  }

  /** `[...explicit.slice(picked), ...indirect.slice(picked), ...similar.slice(picked)]`. */
  function Leftovers(e: seq<Candidate>, i: seq<Candidate>, s: seq<Candidate>, p: FirstPass): seq<Candidate>
    requires |p.explicit| <= |e| && |p.indirect| <= |i| && |p.similar| <= |s|
  {
    e[|p.explicit|..] + i[|p.indirect|..] + s[|p.similar|..]
  }

  /** The back-fill: up to `30 - |first pass|` from the leftovers. */
  function Backfill(e: seq<Candidate>, i: seq<Candidate>, s: seq<Candidate>, favIds: set<SongId>): seq<Candidate>
  {
    var p := First(e, i, s, favIds);
    Pick(Leftovers(e, i, s, p), TotalLimit - |p.All()|, p.Seen(), favIds)
  }

  /** The blended list: 10 explicit, 10 indirect, 10 similar, then the back-fill. */
  function Blended(e: seq<Candidate>, i: seq<Candidate>, s: seq<Candidate>, favIds: set<SongId>): (r: seq<Candidate>)
    ensures First(e, i, s, favIds).All() <= r
  {
    First(e, i, s, favIds).All() + Backfill(e, i, s, favIds)
  }

  /** The first pass of the combine step: three calls of `takeFromBucket`. */
  method TakeFirstPass(e: seq<Candidate>, i: seq<Candidate>, s: seq<Candidate>, favIds: set<SongId>)
    returns (final: seq<Candidate>, seen: set<SongId>, pickedExplicit: nat, pickedIndirect: nat, pickedSimilar: nat)
    ensures var p := First(e, i, s, favIds);
            final == p.All() && seen == p.Seen()
            && pickedExplicit == |p.explicit| && pickedIndirect == |p.indirect| && pickedSimilar == |p.similar|
  {
    ghost var p := First(e, i, s, favIds);
    assert {} + Ids(p.explicit) == Ids(p.explicit) && [] + p.explicit == p.explicit;
    final, seen, pickedExplicit := TakeFromBucket(e, PerBucket, [], {}, favIds);
    final, seen, pickedIndirect := TakeFromBucket(i, PerBucket, final, seen, favIds);
    final, seen, pickedSimilar := TakeFromBucket(s, PerBucket, final, seen, favIds);
  }

  /** The combine step of the route, with the closure state as local values. */
  method Blend(e: seq<Candidate>, i: seq<Candidate>, s: seq<Candidate>, favIds: set<SongId>)
    returns (final: seq<Candidate>)
    ensures final == Blended(e, i, s, favIds)
  {
    var seen, pickedExplicit, pickedIndirect, pickedSimilar;
    final, seen, pickedExplicit, pickedIndirect, pickedSimilar := TakeFirstPass(e, i, s, favIds);
    var leftovers := e[pickedExplicit..] + i[pickedIndirect..] + s[pickedSimilar..];
    var backfilled;
    final, seen, backfilled := TakeFromBucket(leftovers, TotalLimit - |final|, final, seen, favIds);
  }

  /** The ids a blend can use: non-empty, not a favourite, from any bucket. */
  function Eligible(e: seq<Candidate>, i: seq<Candidate>, s: seq<Candidate>, favIds: set<SongId>): set<SongId>
  {
    Usable(e + i + s, favIds)
  }

  /** The first pass has distinct, usable ids drawn from the buckets. */
  lemma FirstSound(e: seq<Candidate>, i: seq<Candidate>, s: seq<Candidate>, favIds: set<SongId>)
    ensures var p := First(e, i, s, favIds);
            Ids(p.All()) == p.Seen() && DistinctIds(p.All())
            && (forall c :: c in p.All() ==> c in e + i + s && !Skipped(c, {}, favIds))
  {
    var p := First(e, i, s, favIds);
    PickSound(e, PerBucket, {}, favIds);
    PickSound(i, PerBucket, Ids(p.explicit), favIds);
    PickSound(s, PerBucket, Ids(p.explicit) + Ids(p.indirect), favIds);
    IdsAppend(p.explicit, p.indirect);
    IdsAppend(p.explicit + p.indirect, p.similar);
    DistinctAppend(p.explicit, p.indirect);
    DistinctAppend(p.explicit + p.indirect, p.similar);
  }

  lemma LeftoversFromBuckets(e: seq<Candidate>, i: seq<Candidate>, s: seq<Candidate>, p: FirstPass)
    requires |p.explicit| <= |e| && |p.indirect| <= |i| && |p.similar| <= |s|
    ensures forall c :: c in Leftovers(e, i, s, p) ==> c in e + i + s
  {
    forall c | c in Leftovers(e, i, s, p) ensures c in e + i + s {
      if c in e[|p.explicit|..] { assert c in e; }
      else if c in i[|p.indirect|..] { assert c in i; }
      else { assert c in s; }
    }
  }

  /** The back-fill adds only usable leftovers whose ids the first pass did
      not use, each once. */
  lemma BackfillSound(e: seq<Candidate>, i: seq<Candidate>, s: seq<Candidate>, favIds: set<SongId>)
    ensures var p := First(e, i, s, favIds);
            var b4 := Backfill(e, i, s, favIds);
            DistinctIds(b4) && |b4| <= TotalLimit - |p.All()|
            && forall c :: c in b4 ==> c in e + i + s && !Skipped(c, p.Seen(), favIds)
  {
    var p := First(e, i, s, favIds);
    PickSound(Leftovers(e, i, s, p), TotalLimit - |p.All()|, p.Seen(), favIds);
    LeftoversFromBuckets(e, i, s, p);
  }

  /** No favourite, no empty id and no id twice; at most 30 entries, all
      taken from the buckets. */
  lemma BlendedSafe(e: seq<Candidate>, i: seq<Candidate>, s: seq<Candidate>, favIds: set<SongId>)
    ensures var b := Blended(e, i, s, favIds);
            |b| <= TotalLimit && DistinctIds(b)
            && forall c :: c in b ==> c in e + i + s && c.song.id !in favIds && c.song.id != []
  {
    var p := First(e, i, s, favIds);
    FirstSound(e, i, s, favIds);
    BackfillSound(e, i, s, favIds);
    DistinctAppend(p.All(), Backfill(e, i, s, favIds));
  }

  /** Every candidate before index `picked` of a bucket was used or skipped. */
  lemma FirstCovers(e: seq<Candidate>, i: seq<Candidate>, s: seq<Candidate>, favIds: set<SongId>)
    ensures var p := First(e, i, s, favIds);
            (forall j :: 0 <= j < |p.explicit| ==> Skipped(e[j], p.Seen(), favIds))
            && (forall j :: 0 <= j < |p.indirect| ==> Skipped(i[j], p.Seen(), favIds))
            && (forall j :: 0 <= j < |p.similar| ==> Skipped(s[j], p.Seen(), favIds))
  {
    var p := First(e, i, s, favIds);
    PickCovers(e, PerBucket, {}, favIds);
    PickCovers(i, PerBucket, Ids(p.explicit), favIds);
    PickCovers(s, PerBucket, Ids(p.explicit) + Ids(p.indirect), favIds);
    assert {} + Ids(p.explicit) <= p.Seen();
  }

  /** A candidate of a bucket is used or skipped by the first pass, or is a leftover. */
  lemma InFirstOrLeftover(e: seq<Candidate>, i: seq<Candidate>, s: seq<Candidate>, favIds: set<SongId>, c: Candidate)
    requires c in e + i + s
    ensures var p := First(e, i, s, favIds);
            Skipped(c, p.Seen(), favIds) || c in Leftovers(e, i, s, p)
  {
    var p := First(e, i, s, favIds);
    FirstCovers(e, i, s, favIds);
    if c in e {
      var j :| 0 <= j < |e| && e[j] == c;
      if j >= |p.explicit| { assert e[j] in e[|p.explicit|..]; }
    } else if c in i {
      var j :| 0 <= j < |i| && i[j] == c;
      if j >= |p.indirect| { assert i[j] in i[|p.indirect|..]; }
    } else {
      assert c in s;
      var j :| 0 <= j < |s| && s[j] == c;
      if j >= |p.similar| { assert s[j] in s[|p.similar|..]; }
    }
  }

  /** When the back-fill stops short of 30, every bucket entry is used or skipped. */
  lemma ShortBackfillSkipsAll(e: seq<Candidate>, i: seq<Candidate>, s: seq<Candidate>, favIds: set<SongId>)
    requires var p := First(e, i, s, favIds);
             |Backfill(e, i, s, favIds)| < TotalLimit - |p.All()|
    ensures var p := First(e, i, s, favIds);
            forall c :: c in e + i + s ==> Skipped(c, p.Seen() + Ids(Backfill(e, i, s, favIds)), favIds)
  {
    var p := First(e, i, s, favIds);
    var b := Backfill(e, i, s, favIds);
    var left := Leftovers(e, i, s, p);
    var all := p.Seen() + Ids(b);
    assert b == Pick(left, TotalLimit - |p.All()|, p.Seen(), favIds);
    PickCovers(left, TotalLimit - |p.All()|, p.Seen(), favIds);
    assert forall c :: c in left ==> Skipped(c, all, favIds);
    forall c | c in e + i + s ensures Skipped(c, all, favIds) {
      InFirstOrLeftover(e, i, s, favIds, c);
    }
  }

  /** When the back-fill stops short of 30, every eligible id made it in. */
  lemma ShortBackfillCovers(e: seq<Candidate>, i: seq<Candidate>, s: seq<Candidate>, favIds: set<SongId>)
    requires var p := First(e, i, s, favIds);
             |Backfill(e, i, s, favIds)| < TotalLimit - |p.All()|
    ensures Eligible(e, i, s, favIds) <= Ids(Blended(e, i, s, favIds))
  {
    var p := First(e, i, s, favIds);
    var b4 := Backfill(e, i, s, favIds);
    var all := p.Seen() + Ids(b4);
    ShortBackfillSkipsAll(e, i, s, favIds);
    FirstSound(e, i, s, favIds);
    IdsAppend(p.All(), b4);
    assert Ids(Blended(e, i, s, favIds)) == all;
    forall x | x in Eligible(e, i, s, favIds) ensures x in all {
      var c :| c in e + i + s && c.song.id != [] && c.song.id !in favIds && c.song.id == x;
      assert Skipped(c, all, favIds);
    }
  }

  /** Counting: distinct ids within `elig`, and all of `elig` when short. */
  lemma LengthFromIds(b: seq<Candidate>, elig: set<SongId>, full: bool)
    requires DistinctIds(b) && Ids(b) <= elig
    requires full ==> |b| == TotalLimit
    requires !full ==> elig <= Ids(b) && |b| <= TotalLimit
    ensures |b| == Min(TotalLimit, |elig|)
  {
    IdsCard(b);
    SubsetCard(Ids(b), elig);
    if !full {
      SubsetCard(elig, Ids(b));
    }
  }

  /** The blend has `min(30, eligible ids)` entries: the back-fill either
      fills the list to 30 or runs out of unused eligible ids. */
  lemma BlendedLength(e: seq<Candidate>, i: seq<Candidate>, s: seq<Candidate>, favIds: set<SongId>)
    ensures |Blended(e, i, s, favIds)| == Min(TotalLimit, |Eligible(e, i, s, favIds)|)
  {
    var p := First(e, i, s, favIds);
    var b := Blended(e, i, s, favIds);
    var elig := Eligible(e, i, s, favIds);
    BlendedSafe(e, i, s, favIds);
    assert Ids(b) <= elig;
    var full := |Backfill(e, i, s, favIds)| >= TotalLimit - |p.All()|;
    if !full {
      ShortBackfillCovers(e, i, s, favIds);
    }
    LengthFromIds(b, elig, full);
  }

  function CountType(s: seq<Candidate>, t: RecType): (r: nat)
    ensures r <= |s|
  {
    if s == [] then 0 else CountType(s[..|s| - 1], t) + (if s[|s| - 1].recType == t then 1 else 0)
  }

  /** With 10 usable ids in each bucket and no id shared between buckets, the
      blend is exactly 10 explicit, 10 indirect and 10 similar-to-saved. */
  lemma BlendedAllocation(e: seq<Candidate>, i: seq<Candidate>, s: seq<Candidate>, favIds: set<SongId>)
    requires forall c :: c in e ==> c.recType == Explicit
    requires forall c :: c in i ==> c.recType == Indirect
    requires forall c :: c in s ==> c.recType == SimilarSaved
    requires |Usable(e, favIds)| >= PerBucket && |Usable(i, favIds)| >= PerBucket && |Usable(s, favIds)| >= PerBucket
    requires Ids(e) !! Ids(i) && Ids(e) !! Ids(s) && Ids(i) !! Ids(s)
    ensures var b := Blended(e, i, s, favIds);
            |b| == TotalLimit && CountType(b, Explicit) == PerBucket
            && CountType(b, Indirect) == PerBucket && CountType(b, SimilarSaved) == PerBucket
  {
    var p := First(e, i, s, favIds);
    PickSound(e, PerBucket, {}, favIds);
    PickSound(i, PerBucket, Ids(p.explicit), favIds);
    PickSound(s, PerBucket, Ids(p.explicit) + Ids(p.indirect), favIds);
    assert {} + favIds == favIds;
    PickFull(e, PerBucket, {}, favIds);
    assert Ids(p.explicit) <= Ids(e);
    assert Usable(i, Ids(p.explicit) + favIds) == Usable(i, favIds);
    PickFull(i, PerBucket, Ids(p.explicit), favIds);
    assert Ids(p.indirect) <= Ids(i);
    assert Usable(s, Ids(p.explicit) + Ids(p.indirect) + favIds) == Usable(s, favIds);
    PickFull(s, PerBucket, Ids(p.explicit) + Ids(p.indirect), favIds);
    var b := Blended(e, i, s, favIds);
    assert b == p.All();
    CountBuckets(p.explicit, p.indirect, p.similar);
  }

  /** Counts of a list made of an explicit, an indirect and a similar part. */
  lemma CountBuckets(p1: seq<Candidate>, p2: seq<Candidate>, p3: seq<Candidate>)
    requires forall c :: c in p1 ==> c.recType == Explicit
    requires forall c :: c in p2 ==> c.recType == Indirect
    requires forall c :: c in p3 ==> c.recType == SimilarSaved
    ensures CountType(p1 + p2 + p3, Explicit) == |p1|
    ensures CountType(p1 + p2 + p3, Indirect) == |p2|
    ensures CountType(p1 + p2 + p3, SimilarSaved) == |p3|
  {
    CountAll(p1, Explicit);
    CountNone(p2, Explicit);
    CountNone(p3, Explicit);
    CountNone(p1, Indirect);
    CountAll(p2, Indirect);
    CountNone(p3, Indirect);
    CountNone(p1, SimilarSaved);
    CountNone(p2, SimilarSaved);
    CountAll(p3, SimilarSaved);
    CountAppend(p1, p2);
    CountAppend(p1 + p2, p3);
  }

  lemma {:induction false} CountAppend(a: seq<Candidate>, b: seq<Candidate>)
    ensures forall t :: CountType(a + b, t) == CountType(a, t) + CountType(b, t)
    decreases |b|
  {
    if b != [] {
      CountAppend(a, b[..|b| - 1]);
      assert (a + b)[..|a + b| - 1] == a + b[..|b| - 1];
    } else {
      assert a + b == a;
    }
  }

  lemma {:induction false} CountAll(s: seq<Candidate>, t: RecType)
    requires forall c :: c in s ==> c.recType == t
    ensures CountType(s, t) == |s|
  {
    if s != [] {
      CountAll(s[..|s| - 1], t);
    }
  }

  lemma {:induction false} CountNone(s: seq<Candidate>, t: RecType)
    requires forall c :: c in s ==> c.recType != t
    ensures CountType(s, t) == 0
  {
    if s != [] {
      CountNone(s[..|s| - 1], t);
    }
  }

  /** The three type counts partition the list. */
  lemma {:induction false} CountPartition(s: seq<Candidate>)
    ensures CountType(s, Explicit) + CountType(s, Indirect) + CountType(s, SimilarSaved) == |s|
  {
    if s != [] {
      CountPartition(s[..|s| - 1]);
    }
  }

  // ---------------------------------------------------------------------
  // Final dedup pass
  // ---------------------------------------------------------------------

  /** The safety pass: keep the first entry of each id that is not a favourite. */
  function Unique(s: seq<Candidate>, seen: set<SongId>, favIds: set<SongId>): (r: seq<Candidate>)
    ensures |r| <= |s|
    decreases |s|
  {
    if s == [] then []
    else if s[0].song.id in seen || s[0].song.id in favIds then Unique(s[1..], seen, favIds)
    else [s[0]] + Unique(s[1..], seen + {s[0].song.id}, favIds)
  }

  /** The pass keeps only entries of `s`, never a favourite or a seen id, and
      each id once. */
  lemma {:induction false} UniqueSound(s: seq<Candidate>, seen: set<SongId>, favIds: set<SongId>)
    ensures var r := Unique(s, seen, favIds);
            (forall c :: c in r ==> c in s && c.song.id !in seen && c.song.id !in favIds) && DistinctIds(r)
    decreases |s|
  {
    if s == [] {
    } else if s[0].song.id in seen || s[0].song.id in favIds {
      UniqueSound(s[1..], seen, favIds);
    } else {
      var rest := Unique(s[1..], seen + {s[0].song.id}, favIds);
      UniqueSound(s[1..], seen + {s[0].song.id}, favIds);
      DistinctAppend([s[0]], rest);
    }
  }

  lemma DistinctTail(s: seq<Candidate>)
    requires s != [] && DistinctIds(s)
    ensures DistinctIds(s[1..]) && forall c :: c in s[1..] ==> c.song.id != s[0].song.id
  {
    var t := s[1..];
    forall c | c in t ensures c.song.id != s[0].song.id {
      var j :| 0 <= j < |t| && t[j] == c;
      assert s[j + 1] == c;
    }
  }

  /** A list that already has distinct, non-favourite ids passes unchanged. */
  lemma {:induction false} UniqueKeepsClean(s: seq<Candidate>, seen: set<SongId>, favIds: set<SongId>)
    requires DistinctIds(s)
    requires forall c :: c in s ==> c.song.id !in seen && c.song.id !in favIds
    ensures Unique(s, seen, favIds) == s
    decreases |s|
  {
    if s != [] {
      var t := s[1..];
      DistinctTail(s);
      UniqueKeepsClean(t, seen + {s[0].song.id}, favIds);
      calc {
        Unique(s, seen, favIds);
        [s[0]] + Unique(t, seen + {s[0].song.id}, favIds);
        [s[0]] + t;
        s;
      }
    }
  }

  /** The dedup loop over `allRecommendations`. */
  method FinalDedup(all: seq<Candidate>, favIds: set<SongId>) returns (unique: seq<Candidate>)
    ensures unique == Unique(all, {}, favIds)
  {
    unique := [];
    var seenIds: set<SongId> := {};
    var k := 0;
    while k < |all|
      invariant 0 <= k <= |all|
      invariant unique + Unique(all[k..], seenIds, favIds) == Unique(all, {}, favIds)
    {
      var song := all[k];
      assert all[k..][0] == song && all[k..][1..] == all[k + 1..];
      var id := song.song.id;
      if id !in seenIds && id !in favIds {
        seenIds := seenIds + {id};
        unique := unique + [song];
      }
      k := k + 1;
    }
  }

  // ---------------------------------------------------------------------
  // The route
  // ---------------------------------------------------------------------

  datatype RecError = UserNotFound

  datatype Stats = Stats(total: nat, fromExplicit: nat, fromIndirect: nat, fromSavedSimilar: nat)

  datatype UserEcho = UserEcho(onboardingCompleted: bool, preferredGenres: Option<seq<string>>, totalFavorites: nat)

  datatype RecResponse = RecResponse(recommendations: seq<Candidate>, stats: Stats, user: UserEcho)

  function StatsOf(s: seq<Candidate>): (r: Stats)
    ensures r.total == |s|
    ensures r.fromExplicit + r.fromIndirect + r.fromSavedSimilar == r.total
  {
    CountPartition(s);
    Stats(|s|, CountType(s, Explicit), CountType(s, Indirect), CountType(s, SimilarSaved))
  }

  /** The three candidate lists of a user. */
  function ExplicitOf(u: UserDoc, store: Store, favIds: set<SongId>): seq<Candidate>
  {
    ExplicitCandidates(store.ranked, OrEmpty(u.preferredGenres), favIds)
  }

  function IndirectOf(u: UserDoc, store: Store, favIds: set<SongId>): seq<Candidate>
  {
    IndirectCandidates(store.ranked, OrEmpty(u.detectedArtists), OrEmpty(u.detectedGenres), favIds)
  }

  function SimilarOf(store: Store, favorites: seq<Favorite>, provider: SimilarProvider): seq<Candidate>
  {
    SimilarFrom(Take(favorites, SimilarSources), store.natural, FavoriteIds(favorites), provider)
  }

  /** The response body of a successful request. */
  function Recommendations(u: UserDoc, store: Store, favorites: seq<Favorite>, provider: SimilarProvider): (r: RecResponse)
    ensures |r.recommendations| <= TotalLimit
    ensures r.user.totalFavorites == |favorites|
  {
    var favIds := FavoriteIds(favorites);
    var final := Blended(ExplicitOf(u, store, favIds), IndirectOf(u, store, favIds), SimilarOf(store, favorites, provider), favIds);
    var unique := Unique(final, {}, favIds);
    RecResponse(Take(unique, TotalLimit), StatsOf(unique), UserEcho(u.onboardingCompleted, u.preferredGenres, |favorites|))
  }

  /** `GET /:userId/recommendations`. */
  method GetRecommendations(user: Option<UserDoc>, store: Store, favorites: seq<Favorite>, provider: SimilarProvider)
    returns (r: Result<RecResponse, RecError>)
    ensures user.None? <==> r.Failure?
    ensures r.Success? ==> r.value == Recommendations(user.value, store, favorites, provider)
  {
    if user.None? {
      return Failure(UserNotFound);
    }
    var u := user.value;
    var favIds := FavoriteIds(favorites);
    var explicit := ExplicitCandidates(store.ranked, OrEmpty(u.preferredGenres), favIds);
    var indirect := IndirectCandidates(store.ranked, OrEmpty(u.detectedArtists), OrEmpty(u.detectedGenres), favIds);
    var similar := SimilarCandidates(favorites, store.natural, favIds, provider);
    var final := Blend(explicit, indirect, similar, favIds);
    var unique := FinalDedup(final, favIds);
    var stats := StatsOf(unique);
    r := Success(RecResponse(Take(unique, TotalLimit), stats, UserEcho(u.onboardingCompleted, u.preferredGenres, |favorites|)));
  }

  /** What the route promises about its response: no favourite, no repeated
      id, `min(30, eligible ids)` entries, the dedup pass and the slice leave
      the blend untouched, and the stats add up. */
  lemma RecommendationsSound(u: UserDoc, store: Store, favorites: seq<Favorite>, provider: SimilarProvider)
    ensures var favIds := FavoriteIds(favorites);
            var e := ExplicitOf(u, store, favIds);
            var i := IndirectOf(u, store, favIds);
            var s := SimilarOf(store, favorites, provider);
            var resp := Recommendations(u, store, favorites, provider);
            resp.recommendations == Blended(e, i, s, favIds)
            && (forall c :: c in resp.recommendations ==> c.song.id !in favIds)
            && DistinctIds(resp.recommendations)
            && |resp.recommendations| == Min(TotalLimit, |Eligible(e, i, s, favIds)|)
            && resp.stats.total == |resp.recommendations|
            && resp.stats.fromExplicit + resp.stats.fromIndirect + resp.stats.fromSavedSimilar == resp.stats.total
  {
    var favIds := FavoriteIds(favorites);
    var e := ExplicitOf(u, store, favIds);
    var i := IndirectOf(u, store, favIds);
    var s := SimilarOf(store, favorites, provider);
    var b := Blended(e, i, s, favIds);
    BlendedSafe(e, i, s, favIds);
    BlendedLength(e, i, s, favIds);
    UniqueKeepsClean(b, {}, favIds);
  }
}
