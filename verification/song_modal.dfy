/** The song detail modal (client/src/components/SongModal.js): the display
    helpers (duration, large numbers, mood from Last.fm tags, country flag,
    best cover) and the recommendations tab, whose state the component steps
    through around one request. */
module SongModal {
  import opened Common
  import Itunes

  // ---------------------------------------------------------------------
  // Decimal digits
  // ---------------------------------------------------------------------

  function DigitChar(d: nat): (c: char)
    requires d < 10
    ensures IsDigit(c)
  {
    ('0' as int + d) as char
  }

  function DigitValue(c: char): nat
    requires IsDigit(c)
  {
    c as int - '0' as int
  }

  predicate AllDigits(s: string)
  {
    forall i :: 0 <= i < |s| ==> IsDigit(s[i])
  }

  /** `n.toString()` for a whole number: its decimal digits, no leading zero. */
  function Decimal(n: nat): (r: string)
    ensures r != [] && AllDigits(r)
    ensures |r| > 1 ==> r[0] != '0'
    ensures n < 10 <==> |r| == 1
  {
    if n < 10 then [DigitChar(n)] else Decimal(n / 10) + [DigitChar(n % 10)]
  }

  /** The number a string of digits spells. */
  function DigitsValue(s: string): nat
    requires AllDigits(s)
  {
    if s == [] then 0 else DigitsValue(s[..|s| - 1]) * 10 + DigitValue(s[|s| - 1])
  }

  /** Reading the digits back gives the number. */
  lemma {:induction false} DecimalRoundTrip(n: nat)
    ensures DigitsValue(Decimal(n)) == n
    decreases n
  {
    if n >= 10 {
      DecimalRoundTrip(n / 10);
      var r := Decimal(n);
      assert r[..|r| - 1] == Decimal(n / 10);
    }
  }

  /** `padStart(2, '0')`. */
  function PadTwo(s: string): (r: string)
    ensures |s| >= 2 ==> r == s
    ensures |s| < 2 ==> |r| == 2 && r[2 - |s|..] == s && forall i :: 0 <= i < 2 - |s| ==> r[i] == '0'
  {
    if |s| >= 2 then s else seq(2 - |s|, _ => '0') + s
  }

  // ---------------------------------------------------------------------
  // formatDuration
  // ---------------------------------------------------------------------

  /** `formatDuration(seconds)`: minutes, a colon, and the seconds within the
      minute as two digits. */
  function FormatDuration(seconds: nat): (r: string)
    ensures |r| >= 4 && r[|r| - 3] == ':'
    ensures AllDigits(r[..|r| - 3]) && AllDigits(r[|r| - 2..])
  {
    var m := Decimal(seconds / 60);
    var ss := PadTwo(Decimal(seconds % 60));
    PaddedSeconds(seconds);
    assert (m + ":" + ss)[..|m|] == m;
    assert (m + ":" + ss)[|m| + 1..] == ss;
    m + ":" + ss
  }

  /** Reads "m:ss" back into seconds; `None` for any other shape. */
  function ParseDuration(t: string): Option<nat>
  {
    if |t| >= 4 && t[|t| - 3] == ':' && AllDigits(t[..|t| - 3]) && AllDigits(t[|t| - 2..])
       && DigitsValue(t[|t| - 2..]) < 60
    then Some(DigitsValue(t[..|t| - 3]) * 60 + DigitsValue(t[|t| - 2..]))
    else None
  }

  /** The seconds part always has two digits. */
  lemma PaddedSeconds(s: nat)
    ensures |PadTwo(Decimal(s % 60))| == 2 && AllDigits(PadTwo(Decimal(s % 60)))
    ensures DigitsValue(PadTwo(Decimal(s % 60))) == s % 60
  {
    var d := Decimal(s % 60);
    DecimalRoundTrip(s % 60);
    if |d| < 2 {
      var p := PadTwo(d);
      assert p[..1] == "0" && p[1] == d[0];
      assert DigitsValue(p[..1]) == 0;
    }
  }

  /** Every formatted duration reads back as the number of seconds it came
      from. */
  lemma FormatDurationRoundTrip(seconds: nat)
    ensures ParseDuration(FormatDuration(seconds)) == Some(seconds)
  {
    var m := Decimal(seconds / 60);
    var ss := PadTwo(Decimal(seconds % 60));
    PaddedSeconds(seconds);
    DecimalRoundTrip(seconds / 60);
    var t := FormatDuration(seconds);
    assert t == m + ":" + ss;
    assert t[..|t| - 3] == m;
    assert t[|t| - 2..] == ss;
  }

  // ---------------------------------------------------------------------
  // formatNumber
  // ---------------------------------------------------------------------

  /** What `formatNumber` shows, before `toFixed(1)` rounds the mantissa. */
  datatype Shown = Zero | Plain(n: real) | Thousands(x: real) | Millions(x: real)

  /** `formatNumber(num)`; `None` stands for a falsy value or one that
      `Number` cannot read. */
  function FormatNumber(num: Option<real>): (r: Shown)
    ensures r.Zero? <==> num.None? || num.value == 0.0
    ensures r.Plain? <==> num.Some? && num.value != 0.0 && num.value < 1000.0
    ensures r.Thousands? <==> num.Some? && 1000.0 <= num.value < 1000000.0
    ensures r.Millions? <==> num.Some? && num.value >= 1000000.0
  {
    if num.None? || num.value == 0.0 then Zero
    else if num.value >= 1000000.0 then Millions(num.value / 1000000.0)
    else if num.value >= 1000.0 then Thousands(num.value / 1000.0)
    else Plain(num.value)
  }

  /** The shown mantissa times its suffix is the number, and a "K" mantissa
      lies in [1, 1000), an "M" one is at least 1. */
  lemma FormatNumberScales(num: Option<real>)
    ensures FormatNumber(num).Plain? ==> FormatNumber(num).n == num.value
    ensures FormatNumber(num).Thousands? ==>
              FormatNumber(num).x * 1000.0 == num.value && 1.0 <= FormatNumber(num).x < 1000.0
    ensures FormatNumber(num).Millions? ==>
              FormatNumber(num).x * 1000000.0 == num.value && FormatNumber(num).x >= 1.0
  {
  }

  // ---------------------------------------------------------------------
  // getMoodFromTags
  // ---------------------------------------------------------------------

  datatype Mood = Mood(name: string, emoji: string)

  /** The mood table, in the order `Object.entries` visits it. */
  const Moods: seq<Mood> := [
    Mood("happy", "😊"), Mood("sad", "😢"), Mood("chill", "😌"), Mood("energetic", "⚡"),
    Mood("melancholic", "💙"), Mood("upbeat", "🎉"), Mood("romantic", "💕"), Mood("angry", "😠"),
    Mood("party", "🎊")]

  /** `tag.toLowerCase().includes(mood)`. */
  predicate TagHasMood(tag: string, j: nat)
    requires j < |Moods|
  {
    Contains(ToLower(tag), Moods[j].name)
  }

  /** The index of the first mood of the table that the tag contains. */
  function FirstMood(tag: string, from: nat): (r: Option<nat>)
    requires from <= |Moods|
    ensures r.Some? ==> from <= r.value < |Moods| && TagHasMood(tag, r.value)
                        && forall j :: from <= j < r.value ==> !TagHasMood(tag, j)
    ensures r.None? ==> forall j :: from <= j < |Moods| ==> !TagHasMood(tag, j)
    decreases |Moods| - from
  {
    if from == |Moods| then None
    else if TagHasMood(tag, from) then Some(from)
    else FirstMood(tag, from + 1)
  }

  predicate TagMatches(tag: string)
  {
    FirstMood(tag, 0).Some?
  }

  /** The index of the first tag that contains some mood. */
  function FirstMatchingTag(tags: seq<string>): (r: Option<nat>)
    ensures r.Some? ==> r.value < |tags| && TagMatches(tags[r.value])
                        && forall i :: 0 <= i < r.value ==> !TagMatches(tags[i])
    ensures r.None? ==> forall i :: 0 <= i < |tags| ==> !TagMatches(tags[i])
  {
    if tags == [] then None
    else if TagMatches(tags[0]) then Some(0)
    else
      var rest := FirstMatchingTag(tags[1..]);
      if rest.None? then None else Some(rest.value + 1)
  }

  function MoodLabel(j: nat): string
    requires j < |Moods|
  {
    Moods[j].emoji + " " + Moods[j].name
  }

  /** `getMoodFromTags()`: the label of the first mood, in table order, found
      in the earliest tag that holds any mood; null without tags. */
  function MoodFromTags(tags: Option<seq<string>>): (r: Option<string>)
    ensures r.Some? ==> tags.Some? && exists j :: 0 <= j < |Moods| && r.value == MoodLabel(j)
  {
    if tags.None? || tags.value == [] then None
    else
      var i := FirstMatchingTag(tags.value);
      if i.None? then None else Some(MoodLabel(FirstMood(tags.value[i.value], 0).value))
  }

  /** The mood is absent exactly when there are no tags or no tag holds a
      mood; otherwise it names mood `j` of tag `i`, where no earlier tag holds
      any mood and tag `i` holds no earlier mood of the table. */
  lemma MoodIsFirstMatch(tags: Option<seq<string>>)
    ensures MoodFromTags(tags).None? <==>
              tags.None? || forall i, j :: 0 <= i < |tags.value| && 0 <= j < |Moods| ==> !TagHasMood(tags.value[i], j)
    ensures MoodFromTags(tags).Some? ==>
              exists i, j :: 0 <= i < |tags.value| && 0 <= j < |Moods| && MoodFromTags(tags) == Some(MoodLabel(j))
                             && TagHasMood(tags.value[i], j)
                             && (forall k :: 0 <= k < j ==> !TagHasMood(tags.value[i], k))
                             && (forall h, k :: 0 <= h < i && 0 <= k < |Moods| ==> !TagHasMood(tags.value[h], k))
  {
    if tags.Some? && tags.value != [] {
      var t := tags.value;
      var i := FirstMatchingTag(t);
      if i.None? {
        forall h, k | 0 <= h < |t| && 0 <= k < |Moods| ensures !TagHasMood(t[h], k) {
          assert !TagMatches(t[h]);
        }
      } else {
        var j := FirstMood(t[i.value], 0).value;
        forall h, k | 0 <= h < i.value && 0 <= k < |Moods| ensures !TagHasMood(t[h], k) {
          assert !TagMatches(t[h]);
        }
        assert TagHasMood(t[i.value], j);
      }
    }
  }

  /** The table's matching is case-insensitive in the tag. */
  lemma MoodIgnoresTagCase(tag: string, j: nat)
    requires j < |Moods|
    ensures TagHasMood(tag, j) == TagHasMood(ToLower(tag), j)
  {
    LowerIsIdempotent(tag);
  }

  lemma LowerIsIdempotent(s: string)
    ensures ToLower(ToLower(s)) == ToLower(s)
  {
    var l := ToLower(s);
    assert forall i :: 0 <= i < |l| ==> LowerChar(l[i]) == l[i];
  }

  // ---------------------------------------------------------------------
  // getCountryFlag, bestCover
  // ---------------------------------------------------------------------

  const Globe: string := "🌍"

  const Flags: map<string, string> :=
    map["HR" := "🇭🇷", "US" := "🇺🇸", "GB" := "🇬🇧", "DE" := "🇩🇪", "JP" := "🇯🇵"]

  /** `getCountryFlag(code)`: the code's flag, or the globe for any other
      country code (the codes come from the iTunes scan's region list). */
  function CountryFlag(code: string): (r: string)
    ensures r == Globe <==> code !in Flags
  {
    if code in Flags then Flags[code] else Globe
  }

  /** Each region the multi-region iTunes scan searches shows its own flag,
      and no two of them share one. */
  lemma SearchedRegionsHaveOwnFlags()
    ensures forall c :: c in Itunes.Countries ==> CountryFlag(c) != Globe
    ensures forall i, j :: 0 <= i < j < |Itunes.Countries| ==>
              CountryFlag(Itunes.Countries[i]) != CountryFlag(Itunes.Countries[j])
  {
  }

  /** A country code outside the five with a flag shows the globe. */
  lemma OtherCodesShowGlobe(code: string)
    requires code !in ["HR", "US", "GB", "DE", "JP"]
    ensures CountryFlag(code) == Globe
  {
  }

  /** `bestCover`: the first iTunes match's 600px artwork, else the YouTube
      thumbnail, else the stored cover, each only when truthy. */
  function BestCover(itunesData: seq<Itunes.Match>, youtubeThumbnail: Option<string>, cover: Option<string>): (r: Option<string>)
    ensures itunesData != [] && Truthy(itunesData[0].artworkUrl600) ==> r == itunesData[0].artworkUrl600
    ensures !(itunesData != [] && Truthy(itunesData[0].artworkUrl600)) && Truthy(youtubeThumbnail) ==> r == youtubeThumbnail
    ensures !(itunesData != [] && Truthy(itunesData[0].artworkUrl600)) && !Truthy(youtubeThumbnail) ==> r == cover
    ensures r == cover || Truthy(r)
  {
    if itunesData != [] && Truthy(itunesData[0].artworkUrl600) then itunesData[0].artworkUrl600
    else if Truthy(youtubeThumbnail) then youtubeThumbnail
    else cover
  }

  // ---------------------------------------------------------------------
  // The recommendations tab
  // ---------------------------------------------------------------------

  datatype Tab = Overview | Recommendations | OtherTab(name: string)

  datatype RecsStatus = Idle | Loading | Empty | Loaded | Error

  /** The component's state for the recommendations tab. */
  class RecsPanel {
    var activeTab: Tab
    var recommendations: seq<string>
    var loadingRecs: bool
    var recsStatus: RecsStatus

    /** The spinner shows exactly while the status is loading; a loaded list
        is non-empty, and before any answer or after an empty one there is
        none. After an error the list is whatever an earlier answer left. */
    predicate Valid()
      reads this
    {
      (loadingRecs <==> recsStatus == Loading)
      && (recsStatus == Loaded ==> recommendations != [])
      && (recsStatus in {Idle, Loading, Empty} ==> recommendations == [])
    }

    constructor()
      ensures Valid()
      ensures activeTab == Overview && recommendations == [] && !loadingRecs && recsStatus == Idle
    {
      activeTab := Overview;
      recommendations := [];
      loadingRecs := false;
      recsStatus := Idle;
    }

    /** The part of `loadRecommendations` before the request is awaited: with
        recommendations already shown it only switches tab and sends nothing;
        otherwise it enters the loading state and sends the request. */
    method Load() returns (requested: bool)
      requires Valid()
      modifies this
      ensures Valid()
      ensures requested <==> old(recommendations) == []
      ensures !requested ==> activeTab == Recommendations && recommendations == old(recommendations)
                             && loadingRecs == old(loadingRecs) && recsStatus == old(recsStatus)
      ensures requested ==> loadingRecs && recsStatus == Loading && recommendations == old(recommendations)
                            && activeTab == old(activeTab)
    {
      if recommendations != [] {
        activeTab := Recommendations;
        return false;
      }
      loadingRecs := true;
      recsStatus := Loading;
      return true;
    }

    /** The part after the request settles: `reply` is `None` when it threw,
        otherwise the `recommendations` field of the response, which may be
        missing. */
    method Settle(reply: Option<Option<seq<string>>>)
      requires Valid()
      modifies this
      ensures Valid()
      ensures !loadingRecs && activeTab == Recommendations
      ensures recsStatus == SettledStatus(reply)
      ensures recsStatus == Error ==> recommendations == old(recommendations)
      ensures recsStatus == Loaded ==> recommendations == reply.value.value
      ensures recsStatus == Empty ==> recommendations == []
    {
      if reply.None? {
        recsStatus := Error;
        activeTab := Recommendations;
      } else {
        var recs := if reply.value.Some? then reply.value.value else [];
        if recs == [] {
          recommendations := [];
          recsStatus := Empty;
          activeTab := Recommendations;
        } else {
          recommendations := recs;
          recsStatus := Loaded;
          activeTab := Recommendations;
        }
      }
      loadingRecs := false;
    }
  }

  /** The status a settled request leaves. */
  function SettledStatus(reply: Option<Option<seq<string>>>): (r: RecsStatus)
    ensures r != Idle && r != Loading
    ensures r == Error <==> reply.None?
    ensures r == Loaded <==> reply.Some? && reply.value.Some? && reply.value.value != []
  {
    if reply.None? then Error
    else if reply.value.None? || reply.value.value == [] then Empty
    else Loaded
  }
}
