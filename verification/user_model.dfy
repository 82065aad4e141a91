/** The user document (server/src/models/User.js): the genre arrays, the
    `allPreferredGenres` virtual and the `pre('save')` hook that recomputes
    `effectiveGenres`. A missing array (`undefined`) is `None`. */
module UserModel {
  import opened Common

  datatype UserDoc = UserDoc(
    preferredGenres: Option<seq<string>>,
    preferredMoods: Option<seq<string>>,
    onboardingCompleted: bool,
    detectedGenres: Option<seq<string>>,
    detectedArtists: Option<seq<string>>,
    effectiveGenres: seq<string>)

  /** Number of detected genres the hook lets through. */
  const DetectedInEffective: nat := 3

  /** `x || []` on an array field. */
  function OrEmpty(o: Option<seq<string>>): seq<string>
  {
    if o.Some? then o.value else []
  }

  function Elems(xs: seq<string>): set<string>
  {
    set x | x in xs
  }

  /** The elements of `xs` not in `seen`, each at its first occurrence: what
      spreading a `Set` built from `xs` yields once `seen` is already in it. */
  function Dedup(xs: seq<string>, seen: set<string>): (r: seq<string>)
    ensures Distinct(r)
    ensures forall x :: x in r <==> x in xs && x !in seen
    decreases |xs|
  {
    if xs == [] then []
    else if xs[0] in seen then Dedup(xs[1..], seen)
    else [xs[0]] + Dedup(xs[1..], seen + {xs[0]})
  }

  /** Spreading `new Set(a ++ b)` is the set of `a` followed by what `b` adds. */
  lemma {:induction false} DedupAppend(a: seq<string>, b: seq<string>, seen: set<string>)
    ensures Dedup(a + b, seen) == Dedup(a, seen) + Dedup(b, seen + Elems(a))
    decreases |a|
  {
    if a == [] {
      assert a + b == b;
      assert seen + Elems(a) == seen;
    } else {
      assert (a + b)[0] == a[0] && (a + b)[1..] == a[1..] + b;
      assert Elems(a) == {a[0]} + Elems(a[1..]);
      if a[0] in seen {
        DedupAppend(a[1..], b, seen);
        assert seen + Elems(a) == seen + Elems(a[1..]);
      } else {
        DedupAppend(a[1..], b, seen + {a[0]});
        assert seen + {a[0]} + Elems(a[1..]) == seen + Elems(a);
      }
    }
  }

  /** A list without repeats passes through `new Set` unchanged. */
  lemma {:induction false} DedupOfDistinct(xs: seq<string>, seen: set<string>)
    requires Distinct(xs)
    requires forall x :: x in xs ==> x !in seen
    ensures Dedup(xs, seen) == xs
    decreases |xs|
  {
    if xs != [] {
      assert forall i :: 0 < i < |xs| ==> xs[i] != xs[0];
      DedupOfDistinct(xs[1..], seen + {xs[0]});
    }
  }

  /** The `allPreferredGenres` virtual. */
  function AllPreferredGenres(u: UserDoc): (r: seq<string>)
    ensures Distinct(r)
    ensures forall g :: g in r <==> g in OrEmpty(u.preferredGenres) || g in OrEmpty(u.detectedGenres)
  {
    Dedup(OrEmpty(u.preferredGenres) + OrEmpty(u.detectedGenres), {})
  }

  /** What the hook assigns: preferred genres, then the first three detected. */
  function EffectiveGenres(u: UserDoc): (r: seq<string>)
    ensures Distinct(r)
    ensures forall g :: g in r <==> g in OrEmpty(u.preferredGenres) || g in Take(OrEmpty(u.detectedGenres), DetectedInEffective)
  {
    Dedup(OrEmpty(u.preferredGenres) + Take(OrEmpty(u.detectedGenres), DetectedInEffective), {})
  }

  /** The `pre('save')` hook: only `effectiveGenres` changes. */
  function PreSave(u: UserDoc): (r: UserDoc)
    ensures r.effectiveGenres == EffectiveGenres(u)
    ensures r.(effectiveGenres := u.effectiveGenres) == u
  {
    u.(effectiveGenres := EffectiveGenres(u))
  }

  /** The effective list is the preferred genres (deduplicated) followed by
      the detected genres among the first three that are not preferred. */
  lemma EffectivePreferredFirst(u: UserDoc)
    ensures var p := OrEmpty(u.preferredGenres);
            var e := EffectiveGenres(u);
            var k := |Dedup(p, {})|;
            k <= |e| && e[..k] == Dedup(p, {})
            && (forall i :: k <= i < |e| ==> e[i] !in p && e[i] in Take(OrEmpty(u.detectedGenres), DetectedInEffective))
            && (forall g :: g in p ==> g in e[..k])
  {
    var p := OrEmpty(u.preferredGenres);
    var d := Take(OrEmpty(u.detectedGenres), DetectedInEffective);
    DedupAppend(p, d, {});
    assert {} + Elems(p) == Elems(p);
    var e := EffectiveGenres(u);
    var k := |Dedup(p, {})|;
    assert e[..k] == Dedup(p, {});
    forall i | k <= i < |e|
      ensures e[i] !in p && e[i] in d
    {
      assert e[i] == Dedup(d, Elems(p))[i - k];
      assert e[i] in Dedup(d, Elems(p));
    }
  }

  /** A detected genre from index 3 on that is neither preferred nor among the
      first three never reaches `effectiveGenres`. */
  lemma LateDetectedIgnored(u: UserDoc, g: string)
    requires g !in OrEmpty(u.preferredGenres)
    requires g !in Take(OrEmpty(u.detectedGenres), DetectedInEffective)
    ensures g !in EffectiveGenres(u)
  {
  }

  /** Everything the hook keeps is also in `allPreferredGenres`. */
  lemma EffectiveWithinAllPreferred(u: UserDoc)
    ensures forall g :: g in EffectiveGenres(u) ==> g in AllPreferredGenres(u)
  {
    var d := OrEmpty(u.detectedGenres);
    forall g | g in Take(d, DetectedInEffective) ensures g in d {
      var i :| 0 <= i < |Take(d, DetectedInEffective)| && Take(d, DetectedInEffective)[i] == g;
      assert d[i] == g;
    }
  }

  /** The hook depends only on the genre arrays, so saving twice is saving once. */
  lemma PreSaveIdempotent(u: UserDoc)
    ensures PreSave(PreSave(u)) == PreSave(u)
  {
    assert PreSave(u).preferredGenres == u.preferredGenres;
    assert PreSave(u).detectedGenres == u.detectedGenres;
  }

  /** Missing genre arrays behave as empty ones. */
  lemma MissingArraysEmpty(u: UserDoc)
    requires u.preferredGenres.None? && u.detectedGenres.None?
    ensures EffectiveGenres(u) == [] && AllPreferredGenres(u) == []
  {
    assert OrEmpty(u.preferredGenres) + Take(OrEmpty(u.detectedGenres), DetectedInEffective) == [];
    assert OrEmpty(u.preferredGenres) + OrEmpty(u.detectedGenres) == [];
  }
}
