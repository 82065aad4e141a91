/** The iTunes matcher (server/src/utils/itunesApi.js): `norm` string
    normalisation, the containment score of a search hit, the choice of the
    best hit, the three-query fallback and the country scan. The search
    endpoint (with its retries and sleeps) is a function parameter returning
    the hits for a query and a country. */
module Itunes {
  import opened Common

  // ---------------------------------------------------------------------
  // norm: one function per regular-expression replacement
  // ---------------------------------------------------------------------

  /** The `\w` class, which decides `\b`. */
  predicate IsWordChar(c: char)
  {
    IsAsciiLower(c) || IsAsciiUpper(c) || IsDigit(c) || c == '_'
  }

  /** Length of the leading run of whitespace (`\s*` taken greedily). */
  function SpaceRun(s: string): (k: nat)
    ensures k <= |s|
    ensures forall i :: 0 <= i < k ==> IsJsSpace(s[i])
    ensures k < |s| ==> !IsJsSpace(s[k])
  {
    if s == [] || !IsJsSpace(s[0]) then 0 else 1 + SpaceRun(s[1..])
  }

  /** Where the lazy `.*?` followed by `close` stops: the first `close`,
      unless a line terminator (which `.` does not match) comes first. */
  function CloseAt(s: string, close: char): (r: Option<nat>)
    ensures r.Some? ==> r.value < |s| && s[r.value] == close
    ensures r.Some? ==> forall i :: 0 <= i < r.value ==> s[i] != close && !IsLineTerminator(s[i])
  {
    if s == [] then None
    else if s[0] == close then Some(0)
    else if IsLineTerminator(s[0]) then None
    else match CloseAt(s[1..], close)
      case None => None
      case Some(j) => Some(j + 1)
  }

  /** Length of a match of `\s*<open>.*?<close>\s*` at the start of `s`. */
  function GroupAt(s: string, open: char, close: char): (r: Option<nat>)
    ensures r.Some? ==> 0 < r.value <= |s|
  {
    var k := SpaceRun(s);
    if k < |s| && s[k] == open then
      match CloseAt(s[k + 1..], close)
      case None => None
      case Some(j) =>
        var e := k + 1 + j + 1;
        Some(e + SpaceRun(s[e..]))
    else None
  }

  /** `.replace(/\s*\(.*?\)\s*\/g, " ")` and its `[...]` twin. */
  function StripGroups(s: string, open: char, close: char): (r: string)
    ensures NoUpper(s) ==> NoUpper(r)
    decreases |s|
  {
    if s == [] then []
    else match GroupAt(s, open, close)
      case Some(e) => " " + StripGroups(s[e..], open, close)
      case None => [s[0]] + StripGroups(s[1..], open, close)
  }

  /** Where the lazy `.*?<close>` stops when `close` first occurs at `j`
      and no line terminator comes before it. */
  lemma {:induction false} CloseAtIs(s: string, close: char, j: nat)
    requires j < |s| && s[j] == close
    requires forall i :: 0 <= i < j ==> s[i] != close && !IsLineTerminator(s[i])
    ensures CloseAt(s, close) == Some(j)
    decreases j
  {
    if j > 0 {
      CloseAtIs(s[1..], close, j - 1);
    }
  }

  /** A string without an opening bracket comes back unchanged. */
  lemma {:induction false} StripGroupsNoOpen(s: string, open: char, close: char)
    requires forall i :: 0 <= i < |s| ==> s[i] != open
    ensures StripGroups(s, open, close) == s
    decreases |s|
  {
    if s != [] {
      assert GroupAt(s, open, close) == None;
      StripGroupsNoOpen(s[1..], open, close);
    }
  }

  /** A prefix without an opening bracket that does not end in whitespace is
      kept as it is, and the replacement goes on after it. */
  lemma {:induction false} StripGroupsSkip(a: string, b: string, open: char, close: char)
    requires forall i :: 0 <= i < |a| ==> a[i] != open
    requires a != [] ==> !IsJsSpace(a[|a| - 1])
    ensures StripGroups(a + b, open, close) == a + StripGroups(b, open, close)
    decreases |a|
  {
    if a == [] {
      assert a + b == b;
    } else {
      assert (a + b)[|a| - 1] == a[|a| - 1];
      assert SpaceRun(a + b) < |a|;
      assert GroupAt(a + b, open, close) == None;
      DropAppend(a, b, 1);
      StripGroupsSkip(a[1..], b, open, close);
      AppendAssoc([a[0]], a[1..], StripGroups(b, open, close));
      assert [a[0]] + a[1..] == a;
    }
  }

  /** How far a group reaches: the leading whitespace, the opening bracket,
      the text up to the closing bracket and the whitespace after it. */
  lemma GroupAtIs(s: string, open: char, close: char, k: nat, j: nat)
    requires k < |s| && SpaceRun(s) == k && s[k] == open
    requires CloseAt(s[k + 1..], close) == Some(j)
    ensures GroupAt(s, open, close) == Some(k + 1 + j + 1 + SpaceRun(s[k + 1 + j + 1..]))
  {
  }

  /** A group matched at the start is replaced by a single space. */
  lemma StripGroupsAt(s: string, open: char, close: char, e: nat)
    requires GroupAt(s, open, close) == Some(e)
    ensures StripGroups(s, open, close) == " " + StripGroups(s[e..], open, close)
  {
  }

  /** One group, with the whitespace on both sides of it, becomes a single
      space: whitespace before `k`, the opening bracket at `k`, the first
      closing bracket at `c` with no line terminator before it, and
      whitespace up to `e`. */
  lemma StripGroupsGroup(s: string, open: char, close: char, k: nat, c: nat, e: nat)
    requires k < c < e <= |s|
    requires forall i :: 0 <= i < k ==> IsJsSpace(s[i])
    requires s[k] == open && !IsJsSpace(open)
    requires forall i :: k < i < c ==> s[i] != close && !IsLineTerminator(s[i])
    requires s[c] == close
    requires forall i :: c < i < e ==> IsJsSpace(s[i])
    requires e < |s| ==> !IsJsSpace(s[e])
    ensures StripGroups(s, open, close) == " " + StripGroups(s[e..], open, close)
  {
    SpaceRunIs(s, k);
    CloseAtIs(s[k + 1..], close, c - k - 1);
    SpaceRunIs(s[c + 1..], e - c - 1);
    GroupAtIs(s, open, close, k, c - k - 1);
    StripGroupsAt(s, open, close, e);
  }

  /** Whether `\s*-\s.*$` matches at the start of `s`: a dash, one whitespace
      character, then no line terminator up to the end. */
  predicate DashTailAt(s: string)
  {
    var k := SpaceRun(s);
    k + 1 < |s| && s[k] == '-' && IsJsSpace(s[k + 1])
    && forall i :: k + 2 <= i < |s| ==> !IsLineTerminator(s[i])
  }

  /** `.replace(/\s*-\s.*$/g, " ")`: everything from the leftmost match on
      becomes one space. */
  function CutDashTail(s: string): (r: string)
    ensures NoUpper(s) ==> NoUpper(r)
  {
    if s == [] then []
    else if DashTailAt(s) then " "
    else [s[0]] + CutDashTail(s[1..])
  }

  /** A string without a dash comes back unchanged. */
  lemma {:induction false} CutDashTailNoDash(s: string)
    requires forall i :: 0 <= i < |s| ==> s[i] != '-'
    ensures CutDashTail(s) == s
    decreases |s|
  {
    if s != [] {
      assert !DashTailAt(s);
      CutDashTailNoDash(s[1..]);
    }
  }

  /** At the first dash followed by whitespace, the rest of a one-line
      string is cut, together with the whitespace before the dash: a single
      space takes their place. */
  lemma {:induction false} CutDashTailCuts(a: string, w: char, tail: string)
    requires forall i :: 0 <= i < |a| ==> a[i] != '-'
    requires IsJsSpace(w)
    requires forall i :: 0 <= i < |tail| ==> !IsLineTerminator(tail[i])
    ensures CutDashTail(a + ['-', w] + tail) == TrimEnd(a) + " "
    decreases |a|
  {
    var s := a + ['-', w] + tail;
    if forall i :: 0 <= i < |a| ==> IsJsSpace(a[i]) {
      SpaceRunIs(s, |a|);
      assert DashTailAt(s);
      TrimEndDropsSpaces(a);
    } else {
      var j :| 0 <= j < |a| && !IsJsSpace(a[j]);
      assert s[j] == a[j];
      assert SpaceRun(s) <= j;
      assert !DashTailAt(s);
      assert s[1..] == a[1..] + ['-', w] + tail;
      CutDashTailCuts(a[1..], w, tail);
      TrimEndCons(a, j);
      AppendAssoc([a[0]], TrimEnd(a[1..]), " ");
    }
  }

  /** After the word `feat` or `ft` (of length `n`, ending in a word
      character): how far `\.?\b` reaches, if it can. The dot is taken only
      when a word character follows it. */
  function BoundaryAfter(s: string, n: nat): (r: Option<nat>)
    requires 0 < n <= |s|
    ensures r.Some? ==> n <= r.value <= |s|
  {
    if n + 1 < |s| && s[n] == '.' && IsWordChar(s[n + 1]) then Some(n + 1)
    else if n == |s| || !IsWordChar(s[n]) then Some(n)
    else None
  }

  /** `w` starts `s`, ignoring ASCII case (the `i` flag). */
  predicate StartsCi(w: string, s: string)
  {
    |w| <= |s| && ToLower(s[..|w|]) == w
  }

  /** Whether the character before position `i` of `s` is a word character;
      `prevWord` stands for the one before `s`. */
  predicate WordBefore(s: string, i: nat, prevWord: bool)
    requires i <= |s|
  {
    if i == 0 then prevWord else IsWordChar(s[i - 1])
  }

  /** No "feat" or "ft", in any case, starts a word anywhere in `s`. */
  predicate NoFeatWord(s: string, prevWord: bool)
  {
    forall i :: 0 <= i < |s| && !WordBefore(s, i, prevWord) ==>
      !StartsCi("feat", s[i..]) && !StartsCi("ft", s[i..])
  }

  /** Length of a match of `\bfeat\.?\b|\bft\.?\b` at the start of `s`;
      `prevWord` says whether the character before is a word character. */
  function FeatAt(s: string, prevWord: bool): (r: Option<nat>)
    ensures r.Some? ==> 0 < r.value <= |s|
  {
    if prevWord then None
    else if StartsCi("feat", s) then BoundaryAfter(s, 4)
    else if StartsCi("ft", s) then BoundaryAfter(s, 2)
    else None
  }

  /** `.replace(/\bfeat\.?\b|\bft\.?\b/gi, " ")`. */
  function DropFeat(s: string, prevWord: bool): (r: string)
    ensures NoUpper(s) ==> NoUpper(r)
    decreases |s|
  {
    if s == [] then []
    else match FeatAt(s, prevWord)
      case Some(n) => " " + DropFeat(s[n..], IsWordChar(s[n - 1]))
      case None => [s[0]] + DropFeat(s[1..], IsWordChar(s[0]))
  }

  /** A string in which no "feat" or "ft" word starts comes back unchanged. */
  lemma {:induction false} DropFeatNoWord(s: string, prevWord: bool)
    requires NoFeatWord(s, prevWord)
    ensures DropFeat(s, prevWord) == s
    decreases |s|
  {
    if s != [] {
      assert s[0..] == s;
      assert !WordBefore(s, 0, prevWord) ==> !StartsCi("feat", s[0..]) && !StartsCi("ft", s[0..]);
      assert FeatAt(s, prevWord) == None;
      forall i | 0 <= i < |s[1..]| && !WordBefore(s[1..], i, IsWordChar(s[0]))
        ensures !StartsCi("feat", s[1..][i..]) && !StartsCi("ft", s[1..][i..])
      {
        assert s[1..][i..] == s[i + 1..];
        assert WordBefore(s, i + 1, prevWord) == WordBefore(s[1..], i, IsWordChar(s[0]));
      }
      DropFeatNoWord(s[1..], IsWordChar(s[0]));
      assert [s[0]] + s[1..] == s;
    }
  }

  /** The word "feat" or "ft", in any case, at the start of a word and not
      followed by a word character or a dot, becomes a single space. */
  lemma DropFeatWord(w: string, rest: string)
    requires ToLower(w) == "feat" || ToLower(w) == "ft"
    requires rest != [] ==> !IsWordChar(rest[0]) && rest[0] != '.'
    ensures DropFeat(w + rest, false) == " " + DropFeat(rest, true)
  {
    var s := w + rest;
    var n := |w|;
    assert s[..n] == w;
    assert LowerChar(w[n - 1]) == 't';
    assert IsWordChar(s[n - 1]);
    if ToLower(w) == "ft" && 4 <= |s| {
      assert ToLower(s[..4])[1] == LowerChar(w[1]) == 't';
    }
    assert FeatAt(s, false) == Some(n);
    assert s[n..] == rest;
  }

  /** `.replace(/&/g, " and ")`. */
  function SpellAnd(s: string): (r: string)
    ensures NoUpper(s) ==> NoUpper(r)
    ensures forall i :: 0 <= i < |r| ==> r[i] != '&'
  {
    if s == [] then []
    else (if s[0] == '&' then " and " else [s[0]]) + SpellAnd(s[1..])
  }

  /** The replacement works character by character. */
  lemma {:induction false} SpellAndAppend(a: string, b: string)
    ensures SpellAnd(a + b) == SpellAnd(a) + SpellAnd(b)
    decreases |a|
  {
    if a == [] {
      assert a + b == b;
    } else {
      DropAppend(a, b, 1);
      assert (a + b)[0] == a[0];
      SpellAndAppend(a[1..], b);
      AppendAssoc(if a[0] == '&' then " and " else [a[0]], SpellAnd(a[1..]), SpellAnd(b));
    }
  }

  /** An '&' becomes " and "; every other character is kept. */
  lemma SpellAndChar(c: char)
    ensures SpellAnd([c]) == if c == '&' then " and " else [c]
  {
    assert [c][1..] == [];
  }

  predicate IsAlnumOrSpace(c: char)
  {
    IsAsciiLower(c) || IsAsciiUpper(c) || IsDigit(c) || IsJsSpace(c)
  }

  /** `.replace(/[^a-z0-9\s]/gi, " ")`. */
  function BlankSymbols(s: string): (r: string)
    ensures |r| == |s|
    ensures forall i :: 0 <= i < |s| ==> r[i] == (if IsAlnumOrSpace(s[i]) then s[i] else ' ')
  {
    if s == [] then [] else [if IsAlnumOrSpace(s[0]) then s[0] else ' '] + BlankSymbols(s[1..])
  }

  /** A character `norm` may return. */
  predicate IsNormChar(c: char)
  {
    IsAsciiLower(c) || IsDigit(c) || c == ' '
  }

  predicate LowerAlnumOrSpace(c: char)
  {
    IsAsciiLower(c) || IsDigit(c) || IsJsSpace(c)
  }

  /** No space directly follows a space. */
  predicate SingleSpaced(s: string)
  {
    forall i :: 0 <= i < |s| - 1 && s[i] == ' ' ==> s[i + 1] != ' '
  }

  /** A character before a single-spaced string keeps it single-spaced
      unless both are spaces. */
  lemma SingleSpacedCons(c: char, rest: string)
    requires SingleSpaced(rest)
    requires c == ' ' && rest != [] ==> rest[0] != ' '
    ensures SingleSpaced([c] + rest)
  {
    var r := [c] + rest;
    forall i | 0 <= i < |r| - 1 && r[i] == ' '
      ensures r[i + 1] != ' '
    {
      if i > 0 {
        assert r[i] == rest[i - 1] && r[i + 1] == rest[i];
      }
    }
  }

  /** The characters of `s` that are not whitespace, in order. */
  function NonSpaces(s: string): string
  {
    if s == [] then [] else (if IsJsSpace(s[0]) then [] else [s[0]]) + NonSpaces(s[1..])
  }

  /** Dropping leading whitespace keeps the non-whitespace characters. */
  lemma {:induction false} NonSpacesSkipsSpaces(s: string, k: nat)
    requires k <= |s|
    requires forall i :: 0 <= i < k ==> IsJsSpace(s[i])
    ensures NonSpaces(s[k..]) == NonSpaces(s)
    decreases k
  {
    if k > 0 {
      NonSpacesSkipsSpaces(s[1..], k - 1);
      assert s[1..][k - 1..] == s[k..];
    }
  }

  /** `.replace(/\s+/g, " ")`: each whitespace run becomes one space, and
      every other character survives, in order. */
  function CollapseSpaces(s: string): (r: string)
    ensures s != [] ==> r != [] && r[0] == (if IsJsSpace(s[0]) then ' ' else s[0])
    ensures forall i :: 0 <= i < |r| ==> r[i] == ' ' || !IsJsSpace(r[i])
    ensures NonSpaces(r) == NonSpaces(s)
    ensures (forall i :: 0 <= i < |s| ==> LowerAlnumOrSpace(s[i])) ==> forall i :: 0 <= i < |r| ==> IsNormChar(r[i])
    ensures SingleSpaced(r)
    decreases |s|
  {
    if s == [] then []
    else
      var k := if IsJsSpace(s[0]) then SpaceRun(s) else 1;
      var rest := CollapseSpaces(s[k..]);
      CollapseStep(s, k, rest);
      [if IsJsSpace(s[0]) then ' ' else s[0]] + rest
  }

  /** The contract of `CollapseSpaces` carries over from the collapsed rest
      `s[k..]` to the whole, when the first piece of `s` (a whitespace run
      or a single other character) has length `k`. */
  lemma CollapseStep(s: string, k: nat, rest: string)
    requires s != [] && k <= |s|
    requires if IsJsSpace(s[0]) then k == SpaceRun(s) else k == 1
    requires s[k..] == [] ==> rest == []
    requires s[k..] != [] ==> rest != [] && rest[0] == (if IsJsSpace(s[k..][0]) then ' ' else s[k..][0])
    requires forall i :: 0 <= i < |rest| ==> rest[i] == ' ' || !IsJsSpace(rest[i])
    requires NonSpaces(rest) == NonSpaces(s[k..])
    requires (forall i :: 0 <= i < |s[k..]| ==> LowerAlnumOrSpace(s[k..][i])) ==> forall i :: 0 <= i < |rest| ==> IsNormChar(rest[i])
    requires SingleSpaced(rest)
    ensures var r := [if IsJsSpace(s[0]) then ' ' else s[0]] + rest;
            (forall i :: 0 <= i < |r| ==> r[i] == ' ' || !IsJsSpace(r[i]))
            && NonSpaces(r) == NonSpaces(s)
            && ((forall i :: 0 <= i < |s| ==> LowerAlnumOrSpace(s[i])) ==> forall i :: 0 <= i < |r| ==> IsNormChar(r[i]))
            && SingleSpaced(r)
  {
    var c := if IsJsSpace(s[0]) then ' ' else s[0];
    var r := [c] + rest;
    assert r[1..] == rest;
    if IsJsSpace(s[0]) {
      NonSpacesSkipsSpaces(s, k);
      if k < |s| {
        assert s[k..][0] == s[k] && !IsJsSpace(s[k]);
        assert rest[0] != ' ';
      } else {
        assert s[k..] == [];
      }
    } else {
      assert s[1..] == s[k..];
      assert IsJsSpace(' ');
    }
    SingleSpacedCons(c, rest);
    CharsCons(c, rest);
    if forall i :: 0 <= i < |s| ==> LowerAlnumOrSpace(s[i]) {
      assert forall i :: 0 <= i < |s[k..]| ==> s[k..][i] == s[k + i];
      NormCharsCons(c, rest);
    }
  }

  /** Prepending a space or a non-whitespace character keeps every character
      a space or non-whitespace. */
  lemma CharsCons(c: char, rest: string)
    requires c == ' ' || !IsJsSpace(c)
    requires forall i :: 0 <= i < |rest| ==> rest[i] == ' ' || !IsJsSpace(rest[i])
    ensures forall i :: 0 <= i < |[c] + rest| ==> ([c] + rest)[i] == ' ' || !IsJsSpace(([c] + rest)[i])
  {
    assert forall i :: 0 < i < |[c] + rest| ==> ([c] + rest)[i] == rest[i - 1];
  }

  /** Prepending a normal character keeps every character normal. */
  lemma NormCharsCons(c: char, rest: string)
    requires IsNormChar(c)
    requires forall i :: 0 <= i < |rest| ==> IsNormChar(rest[i])
    ensures forall i :: 0 <= i < |[c] + rest| ==> IsNormChar(([c] + rest)[i])
  {
    assert forall i :: 0 < i < |[c] + rest| ==> ([c] + rest)[i] == rest[i - 1];
  }

  /** `SpaceRun` is the only length with its three properties. */
  lemma {:induction false} SpaceRunIs(s: string, k: nat)
    requires k <= |s| && (forall i :: 0 <= i < k ==> IsJsSpace(s[i]))
    requires k < |s| ==> !IsJsSpace(s[k])
    ensures SpaceRun(s) == k
    decreases k
  {
    if k > 0 {
      assert IsJsSpace(s[0]);
      SpaceRunIs(s[1..], k - 1);
    }
  }

  /** A character other than whitespace is kept as it is. */
  lemma CollapseChar(c: char)
    requires !IsJsSpace(c)
    ensures CollapseSpaces([c]) == [c]
  {
    assert [c][1..] == [];
  }

  /** A whole run of whitespace becomes a single space. */
  lemma CollapseRun(sp: string)
    requires sp != [] && forall i :: 0 <= i < |sp| ==> IsJsSpace(sp[i])
    ensures CollapseSpaces(sp) == " "
  {
    SpaceRunIs(sp, |sp|);
    assert sp[|sp|..] == [];
  }

  /** Collapsing works piece by piece when no whitespace run straddles the
      cut. With `CollapseChar` and `CollapseRun` this fixes the result:
      split the input into its maximal runs, and each run of whitespace
      becomes one space while every other character stays, in order. */
  lemma {:induction false} CollapseAppend(s1: string, s2: string)
    requires s1 == [] || s2 == [] || !IsJsSpace(s1[|s1| - 1]) || !IsJsSpace(s2[0])
    ensures CollapseSpaces(s1 + s2) == CollapseSpaces(s1) + CollapseSpaces(s2)
    decreases |s1|
  {
    if s1 == [] {
      assert s1 + s2 == s2;
    } else {
      var s := s1 + s2;
      var k := PieceLen(s1);
      var out := PieceOut(s1[0]);
      assert s[0] == s1[0];
      PieceLenAppend(s1, s2);
      CollapseHead(s);
      CollapseHead(s1);
      DropAppend(s1, s2, k);
      assert s1[k..] == [] || s1[k..][|s1[k..]| - 1] == s1[|s1| - 1];
      CollapseAppend(s1[k..], s2);
      AppendAssoc(out, CollapseSpaces(s1[k..]), CollapseSpaces(s2));
    }
  }

  /** The length of the first maximal piece of `s`: its whole leading
      whitespace run, or its first character. */
  function PieceLen(s: string): (k: nat)
    requires s != []
    ensures 0 < k <= |s|
  {
    if IsJsSpace(s[0]) then SpaceRun(s) else 1
  }

  /** What a piece starting with `c` becomes. */
  function PieceOut(c: char): string
  {
    if IsJsSpace(c) then " " else [c]
  }

  /** One step of `CollapseSpaces`: the first piece becomes `PieceOut` and
      the rest is collapsed on its own. */
  lemma CollapseHead(s: string)
    requires s != []
    ensures CollapseSpaces(s) == PieceOut(s[0]) + CollapseSpaces(s[PieceLen(s)..])
  {
  }

  /** The first piece does not change when more text follows, unless a
      whitespace run would continue across the cut. */
  lemma PieceLenAppend(s1: string, s2: string)
    requires s1 != []
    requires s2 == [] || !IsJsSpace(s1[|s1| - 1]) || !IsJsSpace(s2[0])
    ensures PieceLen(s1 + s2) == PieceLen(s1)
  {
    assert (s1 + s2)[0] == s1[0];
    if IsJsSpace(s1[0]) {
      var k := SpaceRun(s1);
      assert k == |s1| ==> IsJsSpace(s1[|s1| - 1]);
      SpaceRunAppend(s1, s2);
    }
  }

  lemma {:induction false} SpaceRunAppend(s1: string, s2: string)
    requires SpaceRun(s1) < |s1| || s2 == [] || !IsJsSpace(s2[0])
    ensures SpaceRun(s1 + s2) == SpaceRun(s1)
    decreases |s1|
  {
    if s1 == [] {
      assert s1 + s2 == s2;
    } else {
      assert (s1 + s2)[0] == s1[0];
      if IsJsSpace(s1[0]) {
        DropAppend(s1, s2, 1);
        SpaceRunAppend(s1[1..], s2);
      }
    }
  }

  /** The string `norm` has before its final `trim`. */
  function Collapsed(s: string): string
  {
    CollapseSpaces(BlankSymbols(SpellAnd(DropFeat(CutDashTail(StripGroups(StripGroups(ToLower(s), '(', ')'), '[', ']')), false))))
  }

  /** `norm(s)`: lower-case, then the seven replacements, then `trim`; the
      result is in normal form. */
  function Norm(s: string): (r: string)
    ensures NormalForm(r)
  {
    TrimmedIsNormalForm(s);
    Trim(Collapsed(s))
  }

  /** The shape of a normalised string: lower-case ASCII letters, digits and
      single spaces, with no space at either end. */
  predicate NormalForm(s: string)
  {
    (forall i :: 0 <= i < |s| ==> IsNormChar(s[i]))
    && SingleSpaced(s)
    && (s != [] ==> s[0] != ' ' && s[|s| - 1] != ' ')
  }

  lemma CollapsedChars(s: string)
    ensures forall i :: 0 <= i < |Collapsed(s)| ==> IsNormChar(Collapsed(s)[i])
  {
    var lowered := ToLower(s);
    var spelled := SpellAnd(DropFeat(CutDashTail(StripGroups(StripGroups(lowered, '(', ')'), '[', ']')), false));
    assert NoUpper(spelled);
    var blanked := BlankSymbols(spelled);
    forall i | 0 <= i < |blanked| ensures LowerAlnumOrSpace(blanked[i]) {
      assert !IsAsciiUpper(spelled[i]);
    }
  }

  /** Trimming the collapsed string leaves it in normal form. */
  lemma TrimmedIsNormalForm(s: string)
    ensures NormalForm(Trim(Collapsed(s)))
  {
    CollapsedChars(s);
    TrimKeepsNormalChars(Collapsed(s));
  }

  /** Trimming a single-spaced string of normal characters gives a string in
      normal form. */
  lemma TrimKeepsNormalChars(c: string)
    requires forall i :: 0 <= i < |c| ==> IsNormChar(c[i])
    requires SingleSpaced(c)
    ensures NormalForm(Trim(c))
  {
    TrimIsInfix(c);
    var k := |c| - |TrimStart(c)|;
    var t := Trim(c);
    assert t == c[k..k + |t|];
    forall i | 0 <= i < |t| ensures IsNormChar(t[i]) {
      assert t[i] == c[k + i];
    }
    forall i | 0 <= i < |t| - 1 && t[i] == ' ' ensures t[i + 1] != ' ' {
      assert t[i] == c[k + i] && t[i + 1] == c[k + i + 1];
    }
  }

  /** Normalisation ignores ASCII case. */
  lemma NormIgnoresCase(s: string)
    ensures Norm(ToLower(s)) == Norm(s)
  {
    assert ToLower(ToLower(s)) == ToLower(s);
  }

  // ---------------------------------------------------------------------
  // scoreCandidate
  // ---------------------------------------------------------------------

  /** Containment in either direction. */
  predicate Overlaps(x: string, want: string)
  {
    Contains(x, want) || Contains(want, x)
  }

  function TitlePart(t: string, wantTitle: string): (r: nat)
  {
    if t == wantTitle then 100 else if Overlaps(t, wantTitle) then 60 else 0
  }

  function ArtistPart(a: string, wantArtist: string): (r: nat)
  {
    if a == wantArtist then 80 else if Overlaps(a, wantArtist) then 40 else 0
  }

  /** `scoreCandidate`, for already normalised wanted values. */
  function ScoreCandidate(wantTitle: string, wantArtist: string, candTitle: string, candArtist: string): (r: nat)
    ensures r <= 200
    ensures r == 200 <==> Norm(candTitle) == wantTitle && Norm(candArtist) == wantArtist
    ensures r >= 60 ==> Overlaps(Norm(candTitle), wantTitle) || Norm(candArtist) == wantArtist
  {
    var t := Norm(candTitle);
    var a := Norm(candArtist);
    SelfContains(t);
    SelfContains(a);
    TitlePart(t, wantTitle) + ArtistPart(a, wantArtist)
    + (if Overlaps(t, wantTitle) && Overlaps(a, wantArtist) then 20 else 0)
  }

  lemma SelfContains(s: string)
    ensures Contains(s, s)
  {
    assert s[..|s|] == s;
  }

  /** The score is a title part in {100, 60, 0}, an artist part in
      {80, 40, 0} and a bonus of 20 exactly when both overlap. */
  lemma ScoreParts(wantTitle: string, wantArtist: string, candTitle: string, candArtist: string)
    ensures var t := Norm(candTitle);
            var a := Norm(candArtist);
            var r := ScoreCandidate(wantTitle, wantArtist, candTitle, candArtist);
            TitlePart(t, wantTitle) in {100, 60, 0} && ArtistPart(a, wantArtist) in {80, 40, 0}
            && (r - TitlePart(t, wantTitle) - ArtistPart(a, wantArtist) == 20 <==> Overlaps(t, wantTitle) && Overlaps(a, wantArtist))
            && (TitlePart(t, wantTitle) > 0 <==> Overlaps(t, wantTitle))
            && (ArtistPart(a, wantArtist) > 0 <==> Overlaps(a, wantArtist))
  {
    SelfContains(Norm(candTitle));
    SelfContains(Norm(candArtist));
  }

  // ---------------------------------------------------------------------
  // pickBestResult
  // ---------------------------------------------------------------------

  /** The fields of an iTunes search hit that the matcher reads or copies. */
  datatype Hit = Hit(
    trackName: string,
    artistName: string,
    trackId: int,
    trackViewUrl: string,
    previewUrl: string,
    artworkUrl100: Option<string>,
    collectionName: string,
    isrc: Option<string>)

  /** Smallest score `pickBestResult` accepts. */
  const Threshold: nat := 60

  function Scores(hits: seq<Hit>, wantTitle: string, wantArtist: string): (r: seq<nat>)
    ensures |r| == |hits|
    ensures forall i :: 0 <= i < |hits| ==> r[i] == ScoreCandidate(wantTitle, wantArtist, hits[i].trackName, hits[i].artistName)
  {
    seq(|hits|, i requires 0 <= i < |hits| => ScoreCandidate(wantTitle, wantArtist, hits[i].trackName, hits[i].artistName))
  }

  /** The index a strict `>` scan keeps: the first maximum. */
  function FirstMax(scores: seq<nat>): (i: nat)
    requires scores != []
    ensures i < |scores|
  {
    if |scores| == 1 then 0
    else
      var j := FirstMax(scores[..|scores| - 1]);
      if scores[|scores| - 1] > scores[j] then |scores| - 1 else j
  }

  /** `FirstMax` is a maximum, and every earlier score is strictly smaller. */
  lemma {:induction false} FirstMaxIsFirstMaximum(scores: seq<nat>)
    requires scores != []
    ensures forall k :: 0 <= k < |scores| ==> scores[k] <= scores[FirstMax(scores)]
    ensures forall k :: 0 <= k < FirstMax(scores) ==> scores[k] < scores[FirstMax(scores)]
    decreases |scores|
  {
    if |scores| > 1 {
      var init := scores[..|scores| - 1];
      FirstMaxIsFirstMaximum(init);
      assert forall k :: 0 <= k < |init| ==> init[k] == scores[k];
    }
  }

  /** The pick among `hits` whose scores are `scores`: the first maximum,
      unless it is below 60. */
  function PickBy(hits: seq<Hit>, scores: seq<nat>): (r: Option<Hit>)
    requires |scores| == |hits|
    ensures r.Some? ==> r.value in hits
  {
    if hits == [] then None
    else
      var i := FirstMax(scores);
      if scores[i] < Threshold then None else Some(hits[i])
  }

  lemma PickBySound(hits: seq<Hit>, scores: seq<nat>)
    requires |scores| == |hits|
    ensures match PickBy(hits, scores)
            case Some(h) =>
              exists i :: 0 <= i < |hits| && hits[i] == h && scores[i] >= Threshold
                          && (forall k :: 0 <= k < |hits| ==> scores[k] <= scores[i])
                          && (forall k :: 0 <= k < i ==> scores[k] < scores[i])
            case None => forall k :: 0 <= k < |hits| ==> scores[k] < Threshold
  {
    if hits != [] {
      FirstMaxIsFirstMaximum(scores);
    }
  }

  /** What `pickBestResult` returns. */
  function PickBest(results: Option<seq<Hit>>, title: string, artist: string): (r: Option<Hit>)
    ensures r.Some? ==> results.Some? && r.value in results.value
    ensures results.None? || results.value == [] ==> r.None?
  {
    if results.None? then None
    else PickBy(results.value, Scores(results.value, Norm(title), Norm(artist)))
  }

  /** The loop of `pickBestResult`: start from `best = null, bestScore = -1`
      and replace the best hit on a strictly larger score. `scores[i]` is the
      score of `hits[i]`. */
  method ScanBest(hits: seq<Hit>, scores: seq<nat>) returns (best: Option<Hit>, bestScore: int)
    requires |scores| == |hits|
    ensures hits == [] ==> best.None? && bestScore == -1
    ensures hits != [] ==> best == Some(hits[FirstMax(scores)]) && bestScore == scores[FirstMax(scores)]
  {
    best := None;
    bestScore := -1;
    ghost var bestIndex := 0;
    for i := 0 to |hits|
      invariant i == 0 ==> best.None? && bestScore == -1
      invariant i > 0 ==> bestIndex == FirstMax(scores[..i]) && bestScore == scores[bestIndex]
                          && best == Some(hits[bestIndex])
    {
      var s := scores[i];
      assert scores[..i + 1][..i] == scores[..i];
      if s > bestScore {
        bestScore := s;
        best := Some(hits[i]);
        bestIndex := i;
      }
    }
    assert scores[..|hits|] == scores;
  }

  /** `pickBestResult`: no pick from a missing or empty list, otherwise the
      first best-scoring hit unless its score is below 60. */
  method PickBestResult(results: Option<seq<Hit>>, title: string, artist: string) returns (best: Option<Hit>)
    ensures best == PickBest(results, title, artist)
  {
    if results.None? || |results.value| == 0 {
      return None;
    }
    var hits := results.value;
    var wantTitle := Norm(title);
    var wantArtist := Norm(artist);
    var bestScore;
    best, bestScore := ScanBest(hits, Scores(hits, wantTitle, wantArtist));
    if bestScore < Threshold as int {
      best := None;
    }
  }

  /** A pick is the first hit with the highest score, which reaches 60; no
      pick from a non-empty list means every score is below 60. */
  lemma PickBestSound(results: Option<seq<Hit>>, title: string, artist: string)
    ensures var hits := if results.Some? then results.value else [];
            var scores := Scores(hits, Norm(title), Norm(artist));
            match PickBest(results, title, artist)
            case Some(h) =>
              exists i :: 0 <= i < |hits| && hits[i] == h && scores[i] >= Threshold
                          && (forall k :: 0 <= k < |hits| ==> scores[k] <= scores[i])
                          && (forall k :: 0 <= k < i ==> scores[k] < scores[i])
            case None => forall k :: 0 <= k < |hits| ==> scores[k] < Threshold
  {
    if results.Some? {
      PickBySound(results.value, Scores(results.value, Norm(title), Norm(artist)));
    }
  }

  /** A pick overlaps the wanted title or matches the artist exactly, since
      artist containment alone scores at most 40. */
  lemma PickMatchesTitleOrArtist(results: Option<seq<Hit>>, title: string, artist: string)
    ensures PickBest(results, title, artist).Some? ==>
              var h := PickBest(results, title, artist).value;
              Overlaps(Norm(h.trackName), Norm(title)) || Norm(h.artistName) == Norm(artist)
  {
    if results.Some? && results.value != [] {
      var hits, wantTitle, wantArtist := results.value, Norm(title), Norm(artist);
      var scores := Scores(hits, wantTitle, wantArtist);
      var i := FirstMax(scores);
      assert PickBest(results, title, artist) == PickBy(hits, scores);
      if scores[i] >= Threshold {
        var h := hits[i];
        assert PickBy(hits, scores) == Some(h);
        assert ScoreCandidate(wantTitle, wantArtist, h.trackName, h.artistName) >= 60;
      }
    }
  }

  // ---------------------------------------------------------------------
  // searchItunesTrack and getMultiRegionData
  // ---------------------------------------------------------------------

  /** The hits the search endpoint returns for a term in a country (an empty
      list when it fails). */
  type Search = (string, string) -> seq<Hit>

  datatype Match = Match(
    country: string,
    itunesId: int,
    itunesUrl: string,
    previewUrl: string,
    artworkUrl600: Option<string>,
    collectionName: string,
    isrc: Option<string>,
    matchedBy: string)

  /** `s.replace(pat, rep)` with a string pattern: the first occurrence only. */
  function ReplaceFirst(s: string, pat: string, rep: string): (r: string)
    requires pat != []
    ensures !Contains(s, pat) ==> r == s
    decreases |s|
  {
    if IsPrefix(pat, s) then rep + s[|pat|..]
    else if s == [] then []
    else [s[0]] + ReplaceFirst(s[1..], pat, rep)
  }

  lemma ReplaceFirstSkips(s: string, pat: string, rep: string)
    requires pat != [] && s != [] && !IsPrefix(pat, s)
    ensures ReplaceFirst(s, pat, rep) == [s[0]] + ReplaceFirst(s[1..], pat, rep)
  {
  }

  /** When `pat` first occurs at `i`, that occurrence alone is replaced. */
  lemma {:induction false} ReplaceFirstAt(s: string, pat: string, rep: string, i: nat)
    requires pat != [] && i <= |s| && IsPrefix(pat, s[i..])
    requires forall j :: 0 <= j < i ==> !IsPrefix(pat, s[j..])
    ensures i + |pat| <= |s|
    ensures ReplaceFirst(s, pat, rep) == s[..i] + rep + s[i + |pat|..]
    decreases i
  {
    if i == 0 {
      assert s[0..] == s;
      assert s[..0] == [];
    } else {
      NoEarlierOccurrence(s, pat, i);
      ReplaceFirstSkips(s, pat, rep);
      ReplaceFirstAt(s[1..], pat, rep, i - 1);
      SplitAfterHead(s, i, |pat|);
    }
  }

  /** No occurrence before `i` means none at the head, and none before
      `i - 1` in the tail. */
  lemma NoEarlierOccurrence(s: string, pat: string, i: nat)
    requires 0 < i <= |s| && IsPrefix(pat, s[i..])
    requires forall j :: 0 <= j < i ==> !IsPrefix(pat, s[j..])
    ensures !IsPrefix(pat, s)
    ensures IsPrefix(pat, s[1..][i - 1..])
    ensures forall j :: 0 <= j < i - 1 ==> !IsPrefix(pat, s[1..][j..])
  {
    assert !IsPrefix(pat, s[0..]);
    assert s[0..] == s;
    assert s[1..][i - 1..] == s[i..];
    forall j | 0 <= j < i - 1
      ensures !IsPrefix(pat, s[1..][j..])
    {
      assert s[1..][j..] == s[j + 1..];
    }
  }

  lemma SplitAfterHead(s: string, i: nat, n: nat)
    requires 0 < i && i + n <= |s|
    ensures s[..i] == [s[0]] + s[1..][..i - 1]
    ensures s[i + n..] == s[1..][i - 1 + n..]
  {
  }

  /** `x || null` on an optional string. */
  function NonEmpty(o: Option<string>): (r: Option<string>)
    ensures r.Some? <==> o.Some? && o.value != []
  {
    if o.Some? && o.value != [] then o else None
  }

  function MatchOf(h: Hit, country: string, q: string): (m: Match)
    ensures m.country == country && m.matchedBy == q && m.itunesId == h.trackId
    ensures m.artworkUrl600.Some? <==> h.artworkUrl100.Some? && h.artworkUrl100.value != []
  {
    var art := NonEmpty(h.artworkUrl100);
    Match(country, h.trackId, h.trackViewUrl, h.previewUrl,
          if art.Some? then Some(ReplaceFirst(art.value, "100x100bb", "600x600bb")) else None,
          h.collectionName, NonEmpty(h.isrc), q)
  }

  /** The three queries, in the order they are tried. */
  function Queries(title: string, artist: string): (r: seq<string>)
    ensures |r| == 3
  {
    [title + " " + artist, title, artist + " " + title]
  }

  /** The pick `pickBestResult` makes from the hits of each query. */
  function Picks(queries: seq<string>, title: string, artist: string, country: string, search: Search): (r: seq<Option<Hit>>)
    ensures |r| == |queries|
    ensures forall i :: 0 <= i < |queries| ==> r[i] == PickBest(Some(search(queries[i], country)), title, artist)
  {
    seq(|queries|, i requires 0 <= i < |queries| => PickBest(Some(search(queries[i], country)), title, artist))
  }

  /** The match for the first query with a pick. */
  function FirstPick(queries: seq<string>, picks: seq<Option<Hit>>, country: string): (r: Option<Match>)
    requires |picks| == |queries|
    ensures r.Some? ==> r.value.country == country
  {
    if queries == [] then None
    else if picks[0].Some? then Some(MatchOf(picks[0].value, country, queries[0]))
    else FirstPick(queries[1..], picks[1..], country)
  }

  /** No match means no query gave a pick; otherwise the match is built from
      the first query that did, and names it in `matchedBy`. */
  lemma {:induction false} FirstPickIsFirst(queries: seq<string>, picks: seq<Option<Hit>>, country: string)
    requires |picks| == |queries|
    ensures FirstPick(queries, picks, country).None? <==> forall i :: 0 <= i < |picks| ==> picks[i].None?
    ensures forall i :: 0 <= i < |queries| && picks[i].Some? && (forall k :: 0 <= k < i ==> picks[k].None?) ==>
              FirstPick(queries, picks, country) == Some(MatchOf(picks[i].value, country, queries[i]))
    decreases |queries|
  {
    if queries != [] {
      FirstPickIsFirst(queries[1..], picks[1..], country);
    }
  }

  /** The outcome of `searchItunesTrack` in one country. */
  function SearchTrack(title: string, artist: string, country: string, search: Search): (r: Option<Match>)
    ensures r.Some? ==> r.value.country == country
  {
    FirstPick(Queries(title, artist), Picks(Queries(title, artist), title, artist, country, search), country)
  }

  /** `searchItunesTrack`: try the queries in order, return on the first pick. */
  method SearchItunesTrack(title: string, artist: string, country: string, search: Search) returns (found: Option<Match>)
    ensures found == SearchTrack(title, artist, country, search)
  {
    var queries := Queries(title, artist);
    ghost var picks := Picks(queries, title, artist, country, search);
    for i := 0 to |queries|
      invariant FirstPick(queries, picks, country) == FirstPick(queries[i..], picks[i..], country)
    {
      var results := search(queries[i], country);
      var best := PickBestResult(Some(results), title, artist);
      assert best == picks[i];
      assert queries[i..][1..] == queries[i + 1..];
      assert picks[i..][1..] == picks[i + 1..];
      if best.Some? {
        return Some(MatchOf(best.value, country, queries[i]));
      }
    }
    return None;
  }

  /** The countries scanned, in order. */
  const Countries: seq<string> := ["US", "GB", "DE", "HR", "JP"]

  /** Number of matches after which the scan stops. */
  const Enough: nat := 2

  /** The per-country outcomes of `searchItunesTrack`, in scan order. */
  function Lookups(title: string, artist: string, search: Search): (r: seq<Option<Match>>)
    ensures |r| == |Countries|
    ensures forall i :: 0 <= i < |Countries| ==> r[i] == SearchTrack(title, artist, Countries[i], search)
  {
    seq(|Countries|, i requires 0 <= i < |Countries| => SearchTrack(title, artist, Countries[i], search))
  }

  /** Matches from scanning the remaining `lookups` after `found` was
      collected; they extend `found`. */
  function ScanFrom(lookups: seq<Option<Match>>, found: seq<Match>): (r: seq<Match>)
    ensures found <= r
  {
    if lookups == [] then found
    else
      var next := found + (if lookups[0].Some? then [lookups[0].value] else []);
      if |next| >= Enough then next else ScanFrom(lookups[1..], next)
  }

  /** Number of countries with a match. */
  function Hits(lookups: seq<Option<Match>>): nat
  {
    if lookups == [] then 0 else (if lookups[0].Some? then 1 else 0) + Hits(lookups[1..])
  }

  /** At most two matches come back, in scan order, each the outcome of some
      country; fewer than two means every country's match was kept. */
  lemma {:induction false} ScanFromSound(lookups: seq<Option<Match>>, found: seq<Match>)
    requires |found| < Enough
    ensures var r := ScanFrom(lookups, found);
            |r| <= Enough && |found| <= |r| && r[..|found|] == found
            && (forall j :: |found| <= j < |r| ==> Some(r[j]) in lookups)
            && (|r| < Enough ==> |r| == |found| + Hits(lookups))
    decreases |lookups|
  {
    if lookups != [] {
      var next := found + (if lookups[0].Some? then [lookups[0].value] else []);
      if |next| < Enough {
        ScanFromSound(lookups[1..], next);
        var r := ScanFrom(lookups, found);
        assert r[..|next|] == next;
        assert r[..|found|] == next[..|found|];
      }
    }
  }

  /** The matches of the countries that have one, in scan order. */
  function Somes(lookups: seq<Option<Match>>): (r: seq<Match>)
    ensures |r| == Hits(lookups)
  {
    if lookups == [] then [] else (if lookups[0].Some? then [lookups[0].value] else []) + Somes(lookups[1..])
  }

  /** The scan keeps the first matches in country order, as many as are
      still missing. */
  lemma {:induction false} ScanFromTakes(lookups: seq<Option<Match>>, found: seq<Match>)
    requires |found| < Enough
    ensures ScanFrom(lookups, found) == found + Take(Somes(lookups), Enough - |found|)
    decreases |lookups|
  {
    if lookups != [] {
      var rest := Somes(lookups[1..]);
      var m := Enough - |found|;
      if lookups[0].Some? {
        var x := lookups[0].value;
        var next := found + [x];
        assert Somes(lookups) == [x] + rest;
        if |next| < Enough {
          ScanFromTakes(lookups[1..], next);
          var t := Take(rest, m - 1);
          var u := Take([x] + rest, m);
          assert u == [x] + t by {
            assert |u| == |[x] + t|;
            forall j | 0 <= j < |u|
              ensures u[j] == ([x] + t)[j]
            {
              if j > 0 {
                assert u[j] == rest[j - 1] && t[j - 1] == rest[j - 1];
              }
            }
          }
        } else {
          var u := Take([x] + rest, m);
          assert |u| == 1 && u[0] == ([x] + rest)[0];
        }
      } else {
        assert Somes(lookups) == [] + rest == rest;
        assert found + [] == found;
        assert ScanFrom(lookups, found) == ScanFrom(lookups[1..], found);
        ScanFromTakes(lookups[1..], found);
      }
    }
  }

  /** One step of the scan from country `i`. */
  lemma ScanStep(lookups: seq<Option<Match>>, i: nat, found: seq<Match>)
    requires i < |lookups|
    ensures var next := found + (if lookups[i].Some? then [lookups[i].value] else []);
            ScanFrom(lookups[i..], found) == if |next| >= Enough then next else ScanFrom(lookups[i + 1..], next)
  {
    assert lookups[i..][1..] == lookups[i + 1..];
  }

  /** `getMultiRegionData`: scan the countries, keep each match, stop at two. */
  method GetMultiRegionData(title: string, artist: string, search: Search) returns (found: seq<Match>)
    ensures found == ScanFrom(Lookups(title, artist, search), [])
    ensures |found| <= Enough
  {
    ghost var lookups := Lookups(title, artist, search);
    found := [];
    for i := 0 to |Countries|
      invariant |found| < Enough
      invariant ScanFrom(lookups, []) == ScanFrom(lookups[i..], found)
    {
      var one := SearchItunesTrack(title, artist, Countries[i], search);
      assert one == lookups[i];
      ScanStep(lookups, i, found);
      found := found + (if one.Some? then [one.value] else []);
      if |found| >= Enough {
        return;
      }
    }
  }
}
