/** The YouTube enrichment helpers (server/src/utils/youtubeApi.js): the
    statistics mapping with its defaults, and the sentiment tally over a
    video's comments. The sentiment classifier is an abstract labelling
    function; the HTTP calls and the job loop are not part of this model. */
module Youtube {
  import opened Common

  const PositiveLabel: string := "POSITIVE"
  const NegativeLabel: string := "NEGATIVE"

  /** The first label the classifier gives a comment. */
  type Classifier = string -> string

  /** `statistics` of a video item; each count may be absent. */
  datatype RawStats = RawStats(viewCount: Option<nat>, likeCount: Option<nat>, commentCount: Option<nat>)

  datatype VideoItem = VideoItem(statistics: Option<RawStats>)

  datatype VideoStats = VideoStats(views: nat, likes: nat, commentCount: nat)

  /** `getVideoStats`: null without a first item or without its statistics;
      otherwise the three counts with 0 for a missing one. */
  function GetVideoStats(items: seq<VideoItem>): (r: Option<VideoStats>)
    ensures r.None? <==> items == [] || items[0].statistics.None?
    ensures r.Some? ==>
              var s := items[0].statistics.value;
              (s.viewCount.Some? ==> r.value.views == s.viewCount.value) && (s.viewCount.None? ==> r.value.views == 0)
              && (s.likeCount.Some? ==> r.value.likes == s.likeCount.value) && (s.likeCount.None? ==> r.value.likes == 0)
              && (s.commentCount.Some? ==> r.value.commentCount == s.commentCount.value)
              && (s.commentCount.None? ==> r.value.commentCount == 0)
  {
    if items == [] || items[0].statistics.None? then None
    else
      var s := items[0].statistics.value;
      Some(VideoStats(GetOr(s.viewCount, 0), GetOr(s.likeCount, 0), GetOr(s.commentCount, 0)))
  }

  /** The number of comments the classifier labels `wanted`. */
  function CountLabel(comments: seq<string>, classify: Classifier, wanted: string): (r: nat)
    ensures r <= |comments|
  {
    if comments == [] then 0
    else CountLabel(comments[..|comments| - 1], classify, wanted)
         + (if classify(comments[|comments| - 1]) == wanted then 1 else 0)
  }

  predicate IsOther(l: string)
  {
    l != PositiveLabel && l != NegativeLabel
  }

  /** The number of comments labelled neither POSITIVE nor NEGATIVE. */
  function CountOther(comments: seq<string>, classify: Classifier): (r: nat)
    ensures r <= |comments|
  {
    if comments == [] then 0
    else CountOther(comments[..|comments| - 1], classify)
         + (if IsOther(classify(comments[|comments| - 1])) then 1 else 0)
  }

  /** Every comment is counted exactly once. */
  lemma {:induction false} CountsPartition(comments: seq<string>, classify: Classifier)
    ensures CountLabel(comments, classify, PositiveLabel) + CountLabel(comments, classify, NegativeLabel)
            + CountOther(comments, classify) == |comments|
  {
    if comments != [] {
      CountsPartition(comments[..|comments| - 1], classify);
    }
  }

  /** The tally the job stores; `score` is before `toFixed(3)`. */
  datatype Sentiment = Sentiment(positive: nat, negative: nat, neutral: nat, score: real)

  /** `(positive - negative) / (positive + negative + neutral || 1)`. */
  function SentimentScore(positive: nat, negative: nat, neutral: nat): (r: real)
    ensures -1.0 <= r <= 1.0
  {
    var total := if positive + negative + neutral == 0 then 1 else positive + negative + neutral;
    DivBounds((positive - negative) as real, total as real);
    (positive - negative) as real / total as real
  }

  lemma DivBounds(x: real, t: real)
    requires t > 0.0 && -t <= x <= t
    ensures -1.0 <= x / t <= 1.0
  {
    assert x / t * t == x;
  }

  /** The score is 1 when every counted comment is positive (and there is
      one), -1 when every one is negative. */
  lemma ScoreInRange(positive: nat, negative: nat, neutral: nat)
    ensures negative == 0 && neutral == 0 && positive > 0 ==> SentimentScore(positive, negative, neutral) == 1.0
    ensures positive == 0 && neutral == 0 && negative > 0 ==> SentimentScore(positive, negative, neutral) == -1.0
  {
    var total := positive + negative + neutral;
    if total > 0 {
      if negative == 0 && neutral == 0 {
        assert (positive - negative) as real == total as real;
        assert (total as real) / (total as real) == 1.0;
      }
      if positive == 0 && neutral == 0 {
        assert (positive - negative) as real == -(total as real);
        assert -(total as real) / (total as real) == -1.0;
      }
    }
  }

  /** `analyzeSentiment`: one classifier call per comment, tallied into three
      counters. */
  method AnalyzeSentiment(comments: seq<string>, classify: Classifier) returns (s: Sentiment)
    ensures s.positive == CountLabel(comments, classify, PositiveLabel)
    ensures s.negative == CountLabel(comments, classify, NegativeLabel)
    ensures s.neutral == CountOther(comments, classify)
    ensures s.positive + s.negative + s.neutral == |comments|
    ensures s.score == SentimentScore(s.positive, s.negative, s.neutral)
    ensures -1.0 <= s.score <= 1.0
  {
    var positive, negative, neutral := 0, 0, 0;
    for i := 0 to |comments|
      invariant positive == CountLabel(comments[..i], classify, PositiveLabel)
      invariant negative == CountLabel(comments[..i], classify, NegativeLabel)
      invariant neutral == CountOther(comments[..i], classify)
    {
      assert comments[..i + 1][..i] == comments[..i];
      var l := classify(comments[i]);
      if l == PositiveLabel {
        positive := positive + 1;
      } else if l == NegativeLabel {
        negative := negative + 1;
      } else {
        neutral := neutral + 1;
      }
    }
    assert comments[..|comments|] == comments;
    CountsPartition(comments, classify);
    ScoreInRange(positive, negative, neutral);
    s := Sentiment(positive, negative, neutral, SentimentScore(positive, negative, neutral));
  }

  /** Without comments all counts are zero and so is the score, because the
      total is forced to one. */
  lemma NoCommentsScoresZero(classify: Classifier)
    ensures CountLabel([], classify, PositiveLabel) == 0 && CountLabel([], classify, NegativeLabel) == 0
    ensures CountOther([], classify) == 0
    ensures SentimentScore(0, 0, 0) == 0.0
  {
  }

  /** A label other than POSITIVE or NEGATIVE, in any spelling, is neutral:
      relabelling such a comment to another such label changes no count. */
  lemma {:induction false} OtherLabelsAreNeutral(comments: seq<string>, classify: Classifier, classify2: Classifier)
    requires forall c :: c in comments && classify(c) != classify2(c) ==> IsOther(classify(c)) && IsOther(classify2(c))
    ensures CountLabel(comments, classify, PositiveLabel) == CountLabel(comments, classify2, PositiveLabel)
    ensures CountLabel(comments, classify, NegativeLabel) == CountLabel(comments, classify2, NegativeLabel)
    ensures CountOther(comments, classify) == CountOther(comments, classify2)
    decreases |comments|
  {
    if comments != [] {
      var init := comments[..|comments| - 1];
      assert forall c :: c in init ==> c in comments;
      OtherLabelsAreNeutral(init, classify, classify2);
      assert comments[|comments| - 1] in comments;
    }
  }
}
