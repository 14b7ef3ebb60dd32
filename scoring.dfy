/**
 * The score calculator: a channel's videos in the evaluation window, in
 * the order the video listing returned them, become one metrics record (median base score, mean
 * engagement rate, top-3 mean, growth ratio, four weighted sub-scores and
 * their total). Ratios and means are exact reals.
 */
module Scoring {
  import opened Stats

  /** One video inside the evaluation window. */
  datatype Video = Video(videoId: string, title: string, publishedAt: string, views: nat, likes: nat, comments: nat)

  const WeightMedian: real := 0.6
  const WeightEngagement: real := 0.3
  const WeightViral: real := 0.05
  const WeightGrowth: real := 0.05

  /** How many of the largest scores the top average takes, at most. */
  const TopCount: nat := 3

  /** How many of the last scores the recent average takes, at most (`recent_count`). */
  const RecentCount: nat := 3

  /** The record a channel's score calculation returns (its status is always success). */
  datatype Metrics = Metrics(
    videoCount: nat,
    medianScore: real,
    avgEngagement: real,
    top3Avg: real,
    growthRatio: real,
    scoreMedian: real,
    scoreEngagement: real,
    scoreViral: real,
    scoreGrowth: real,
    totalScore: real,
    videos: seq<Video>)

  /** Per-video base score: views weigh 1, likes 50, comments 100. */
  function BaseScore(views: nat, likes: nat, comments: nat): (r: nat)
    ensures views <= r && 50 * likes <= r && 100 * comments <= r
    ensures r == 0 <==> views == 0 && likes == 0 && comments == 0
  {
    (views * 1) + (likes * 50) + (comments * 100)
  }

  /**
   * Per-video engagement rate in percent: likes plus twice the comments, per
   * view. A video without views has rate 0 instead of a division by zero.
   */
  function EngagementRate(views: nat, likes: nat, comments: nat): (r: real)
    ensures r >= 0.0
    ensures views == 0 ==> r == 0.0
    ensures views > 0 ==> r * views as real == (likes + 2 * comments) as real * 100.0
  {
    if views == 0 then 0.0
    else ((likes + comments * 2) as real / views as real) * 100.0
  }

  function VideoScore(v: Video): nat
  {
    BaseScore(v.views, v.likes, v.comments)
  }

  function VideoEngagement(v: Video): real
  {
    EngagementRate(v.views, v.likes, v.comments)
  }

  function BaseScores(videos: seq<Video>): (r: seq<nat>)
    ensures |r| == |videos|
    ensures forall i :: 0 <= i < |r| ==> (r[i] == 0 <==> videos[i].views == 0 && videos[i].likes == 0 && videos[i].comments == 0)
  {
    seq(|videos|, i requires 0 <= i < |videos| => VideoScore(videos[i]))
  }

  function EngagementRates(videos: seq<Video>): (r: seq<real>)
    ensures |r| == |videos|
    ensures forall i :: 0 <= i < |r| ==> r[i] >= 0.0 && (videos[i].views == 0 ==> r[i] == 0.0)
  {
    seq(|videos|, i requires 0 <= i < |videos| => VideoEngagement(videos[i]))
  }

  /** The min(3, n) largest scores, largest first. */
  function TopScores(scores: seq<nat>): (t: seq<nat>)
    ensures |t| == Min(TopCount, |scores|)
    ensures SortedDescending(t)
    ensures multiset(t) <= multiset(scores)
  {
    var sorted := SortDescending(scores);
    DescendingSplit(sorted, Min(TopCount, |scores|));
    sorted[..Min(TopCount, |scores|)]
  }

  /** The last min(3, n) scores, in list order. */
  function RecentScores(scores: seq<nat>): (t: seq<nat>)
    ensures |t| == Min(RecentCount, |scores|)
    ensures t == scores[|scores| - |t|..]
  {
    scores[|scores| - Min(RecentCount, |scores|)..]
  }

  /** Mean of the min(3, n) largest scores. */
  function TopAverage(scores: seq<nat>): (r: real)
    requires |scores| > 0
    ensures r >= 0.0
  {
    var top := ToReals(TopScores(scores));
    MeanNonNegative(top);
    Mean(top)
  }

  /** Mean of the last min(3, n) scores in list order. */
  function RecentAverage(scores: seq<nat>): (r: real)
    requires |scores| > 0
    ensures r >= 0.0
  {
    var recent := ToReals(RecentScores(scores));
    MeanNonNegative(recent);
    Mean(recent)
  }

  /** Mean of the per-video engagement rates. */
  function AverageEngagement(videos: seq<Video>): (r: real)
    requires |videos| > 0
    ensures r >= 0.0
  {
    var rates := EngagementRates(videos);
    MeanNonNegative(rates);
    Mean(rates)
  }

  /** Recent mean over the median, 0 when the median is not positive. */
  function GrowthRatio(recentAvg: real, median: real): (r: real)
    ensures median <= 0.0 ==> r == 0.0
    ensures median > 0.0 ==> r * median == recentAvg
    ensures recentAvg >= 0.0 ==> r >= 0.0
  {
    if median > 0.0 then recentAvg / median else 0.0
  }

  /** The fixed record of a channel with no videos in the window. */
  function ZeroMetrics(): (m: Metrics)
    ensures m == Weigh([], 0.0, 0.0, 0.0, 0.0)
  {
    Metrics(0, 0.0, 0.0, 0.0, 0.0, 0.0, 0.0, 0.0, 0.0, 0.0, [])
  }

  /** The four weighted sub-scores of the four channel metrics, and their total. */
  function Weigh(videos: seq<Video>, median: real, engagement: real, top3: real, growth: real): (m: Metrics)
    ensures m.videoCount == |videos| && m.videos == videos
    ensures m.medianScore == median && m.avgEngagement == engagement && m.top3Avg == top3 && m.growthRatio == growth
    ensures median >= 0.0 && engagement >= 0.0 && top3 >= 0.0 && growth >= 0.0 ==> m.totalScore >= 0.0
  {
    var scoreMedian := median * WeightMedian;
    var scoreEngagement := engagement * 100.0 * WeightEngagement;
    var scoreViral := top3 * WeightViral;
    var scoreGrowth := growth * 100.0 * WeightGrowth;
    Metrics(|videos|, median, engagement, top3, growth,
            scoreMedian, scoreEngagement, scoreViral, scoreGrowth,
            scoreMedian + scoreEngagement + scoreViral + scoreGrowth, videos)
  }

  /**
   * What the score calculation returns for a channel's videos: the record
   * keeps the videos and their count, and all four metrics and the total
   * are non-negative.
   */
  function ChannelScores(videos: seq<Video>): (m: Metrics)
    ensures m.videoCount == |videos| && m.videos == videos
    ensures m.medianScore >= 0.0 && m.avgEngagement >= 0.0 && m.top3Avg >= 0.0 && m.growthRatio >= 0.0
    ensures m.totalScore >= 0.0
  {
    if |videos| == 0 then ZeroMetrics()
    else
      var scores := BaseScores(videos);
      var median := Median(scores);
      Weigh(videos, median, AverageEngagement(videos), TopAverage(scores), GrowthRatio(RecentAverage(scores), median))
  }

  /** The loop of the score calculation: each video's base score and engagement rate, in list order. */
  method CollectVideoScores(videos: seq<Video>) returns (basicScores: seq<nat>, engagementRates: seq<real>)
    ensures basicScores == BaseScores(videos)
    ensures engagementRates == EngagementRates(videos)
  {
    basicScores := [];
    engagementRates := [];
    for i := 0 to |videos|
      invariant |basicScores| == i && |engagementRates| == i
      invariant forall j :: 0 <= j < i ==> basicScores[j] == VideoScore(videos[j])
      invariant forall j :: 0 <= j < i ==> engagementRates[j] == VideoEngagement(videos[j])
    {
      var video := videos[i];
      var basicScore := BaseScore(video.views, video.likes, video.comments);
      var engagementRate := EngagementRate(video.views, video.likes, video.comments);
      basicScores := basicScores + [basicScore];
      engagementRates := engagementRates + [engagementRate];
    }
  }

  /**
   * The score calculation: the all-zero record without videos; otherwise the
   * channel aggregates of the collected base scores and engagement rates.
   */
  method CalculateChannelScores(videos: seq<Video>) returns (m: Metrics)
    ensures m == ChannelScores(videos)
  {
    var videoCount := |videos|;
    if videoCount == 0 {
      m := Metrics(0, 0.0, 0.0, 0.0, 0.0, 0.0, 0.0, 0.0, 0.0, 0.0, []);
      return;
    }

    var basicScores, engagementRates := CollectVideoScores(videos);

    var medianScore := Median(basicScores);
    var avgEngagement := Mean(engagementRates);

    var topCount := Min(TopCount, |basicScores|);
    var top3Scores := SortDescending(basicScores)[..topCount];
    assert top3Scores == TopScores(basicScores);
    var top3Avg := Mean(ToReals(top3Scores));
    assert top3Avg == TopAverage(basicScores);

    var recentCount := Min(RecentCount, |basicScores|);
    var recent3Scores := basicScores[|basicScores| - recentCount..];
    assert recent3Scores == RecentScores(basicScores);
    var recent3Avg := Mean(ToReals(recent3Scores));
    assert recent3Avg == RecentAverage(basicScores);
    var growthRatio := if medianScore > 0.0 then recent3Avg / medianScore else 0.0;
    assert avgEngagement == AverageEngagement(videos);
    assert growthRatio == GrowthRatio(RecentAverage(basicScores), medianScore);

    m := Weigh(videos, medianScore, avgEngagement, top3Avg, growthRatio);
  }

  /** The four weights sum to 1. */
  lemma WeightsSumToOne()
    ensures WeightMedian + WeightEngagement + WeightViral + WeightGrowth == 1.0
  {
  }

  /** A channel without videos gets the all-zero record, with an empty video list. */
  lemma EmptyChannelIsZero()
    ensures var m := ChannelScores([]);
      && m.videoCount == 0 && m.videos == []
      && m.medianScore == 0.0 && m.avgEngagement == 0.0 && m.top3Avg == 0.0 && m.growthRatio == 0.0
      && m.scoreMedian == 0.0 && m.scoreEngagement == 0.0 && m.scoreViral == 0.0 && m.scoreGrowth == 0.0
      && m.totalScore == 0.0
  {
  }

  /** A mean of non-negative values is non-negative. */
  lemma MeanNonNegative(s: seq<real>)
    requires |s| > 0
    requires forall i :: 0 <= i < |s| ==> s[i] >= 0.0
    ensures Mean(s) >= 0.0
  {
    MeanWithinRange(s);
  }

  /**
   * Weighing keeps the four metrics, scales each by its weight (engagement
   * and growth first by 100) and adds the results up; the total of
   * non-negative metrics is non-negative.
   */
  lemma WeighFacts(videos: seq<Video>, median: real, engagement: real, top3: real, growth: real)
    ensures var m := Weigh(videos, median, engagement, top3, growth);
      && m.videoCount == |videos| && m.videos == videos
      && m.medianScore == median && m.avgEngagement == engagement && m.top3Avg == top3 && m.growthRatio == growth
      && m.totalScore == m.scoreMedian + m.scoreEngagement + m.scoreViral + m.scoreGrowth
      && m.totalScore == 0.6 * median + 30.0 * engagement + 0.05 * top3 + 5.0 * growth
      && (median >= 0.0 && engagement >= 0.0 && top3 >= 0.0 && growth >= 0.0 ==> m.totalScore >= 0.0)
  {
  }

  /**
   * Each sub-score is its metric times the weight (with engagement and
   * growth first scaled by 100), and the total is the sum of the four.
   */
  lemma ScoreBreakdown(videos: seq<Video>)
    ensures var m := ChannelScores(videos);
      && m.scoreMedian == 0.6 * m.medianScore
      && m.scoreEngagement == 30.0 * m.avgEngagement
      && m.scoreViral == 0.05 * m.top3Avg
      && m.scoreGrowth == 5.0 * m.growthRatio
      && m.totalScore == m.scoreMedian + m.scoreEngagement + m.scoreViral + m.scoreGrowth
  {
  }

  /**
   * The top scores are the k = min(3, n) largest: together with the other
   * scores they make up all scores, and none of the others exceeds any of
   * them.
   */
  lemma TopScoresAreLargest(scores: seq<nat>)
    ensures var top := TopScores(scores);
      var rest := SortDescending(scores)[|top|..];
      && |top| == (if |scores| < 3 then |scores| else 3)
      && multiset(top) + multiset(rest) == multiset(scores)
      && (forall i, j :: 0 <= i < |top| && 0 <= j < |rest| ==> top[i] >= rest[j])
  {
    var sorted := SortDescending(scores);
    var top := TopScores(scores);
    assert top == sorted[..|top|];
    DescendingSplit(sorted, |top|);
  }

  lemma {:induction false} SumNonNegative(s: seq<real>)
    requires forall i :: 0 <= i < |s| ==> s[i] >= 0.0
    ensures Sum(s) >= 0.0
  {
    if |s| > 0 {
      SumNonNegative(s[1..]);
    }
  }

  /** The mean of non-negative reals whose first one is positive is positive. */
  lemma MeanPositive(s: seq<real>)
    requires |s| > 0 && s[0] > 0.0
    requires forall i :: 0 <= i < |s| ==> s[i] >= 0.0
    ensures Mean(s) > 0.0
  {
    SumNonNegative(s[1..]);
    assert Sum(s) > 0.0;
  }

  /** A positive score makes the top average positive. */
  lemma TopAveragePositive(scores: seq<nat>, i: nat)
    requires i < |scores| && scores[i] > 0
    ensures TopAverage(scores) > 0.0
  {
    var sorted := SortDescending(scores);
    assert scores[i] in multiset(sorted);
    var j :| 0 <= j < |sorted| && sorted[j] == scores[i];
    assert sorted[0] >= sorted[j];
    var top := TopScores(scores);
    assert top[0] == sorted[0];
    MeanPositive(ToReals(top));
  }

  /** As soon as one video scores above 0, so does the top-3 average. */
  lemma Top3AvgPositive(videos: seq<Video>)
    requires exists i :: 0 <= i < |videos| && VideoScore(videos[i]) > 0
    ensures ChannelScores(videos).top3Avg > 0.0
  {
    var i :| 0 <= i < |videos| && VideoScore(videos[i]) > 0;
    TopAveragePositive(BaseScores(videos), i);
  }

  /**
   * The recent scores are the base scores of the last k = min(3, n) videos,
   * in list order.
   */
  lemma RecentScoresAreLast(videos: seq<Video>)
    requires |videos| > 0
    ensures var recent := RecentScores(BaseScores(videos));
      && |recent| == (if |videos| < 3 then |videos| else 3)
      && (forall i :: 0 <= i < |recent| ==> recent[i] == VideoScore(videos[|videos| - |recent| + i]))
  {
    var scores := BaseScores(videos);
    var recent := RecentScores(scores);
    assert |recent| == Min(RecentCount, |videos|);
    forall i | 0 <= i < |recent| ensures recent[i] == VideoScore(videos[|videos| - |recent| + i]) {
      var j := |videos| - |recent| + i;
      assert recent[i] == scores[j];
      assert scores[j] == VideoScore(videos[j]);
    }
  }

  /**
   * The growth ratio is 0 unless the median is positive; otherwise it is the
   * mean of the last k = min(3, n) scores in list order over the median.
   */
  lemma GrowthRatioMeaning(videos: seq<Video>)
    requires |videos| > 0
    ensures var m := ChannelScores(videos);
      var k := Min(RecentCount, |videos|);
      var recent := BaseScores(videos)[|videos| - k..];
      && (m.medianScore == 0.0 ==> m.growthRatio == 0.0)
      && (m.medianScore > 0.0 ==> m.growthRatio == Mean(ToReals(recent)) / m.medianScore)
  {
    var scores := BaseScores(videos);
    var median := Median(scores);
    assert ChannelScores(videos) == Weigh(videos, median, AverageEngagement(videos), TopAverage(scores), GrowthRatio(RecentAverage(scores), median));
  }

  /**
   * The channel median is the median of the videos' base scores: it lies
   * between two of them, and at most half of the videos score strictly
   * below it and at most half strictly above it.
   */
  lemma ChannelMedian(videos: seq<Video>)
    requires |videos| > 0
    ensures var m := ChannelScores(videos);
      var scores := BaseScores(videos);
      && m.medianScore == Median(scores)
      && (exists i :: 0 <= i < |videos| && VideoScore(videos[i]) as real <= m.medianScore)
      && (exists j :: 0 <= j < |videos| && m.medianScore <= VideoScore(videos[j]) as real)
      && CountBeyond(scores, m.medianScore, Below) <= |videos| / 2
      && CountBeyond(scores, m.medianScore, Above) <= |videos| / 2
  {
    var scores := BaseScores(videos);
    var median := Median(scores);
    assert ChannelScores(videos) == Weigh(videos, median, AverageEngagement(videos), TopAverage(scores), GrowthRatio(RecentAverage(scores), median));
    MedianWithinRange(scores);
    MedianSplitsInHalf(scores);
    var i :| 0 <= i < |scores| && scores[i] as real <= median;
    var j :| 0 <= j < |scores| && median <= scores[j] as real;
    assert VideoScore(videos[i]) as real <= median;
    assert median <= VideoScore(videos[j]) as real;
  }

  /**
   * The channel engagement is the plain mean of the per-video rates (not
   * total interactions over total views), so it
   * lies between the lowest and the highest rate of a video.
   */
  lemma ChannelEngagement(videos: seq<Video>)
    requires |videos| > 0
    ensures var m := ChannelScores(videos);
      && m.avgEngagement == Mean(EngagementRates(videos))
      && (exists i :: 0 <= i < |videos| && VideoEngagement(videos[i]) <= m.avgEngagement)
      && (exists j :: 0 <= j < |videos| && m.avgEngagement <= VideoEngagement(videos[j]))
  {
    var scores := BaseScores(videos);
    var median := Median(scores);
    var rates := EngagementRates(videos);
    assert ChannelScores(videos) == Weigh(videos, median, AverageEngagement(videos), TopAverage(scores), GrowthRatio(RecentAverage(scores), median));
    assert ChannelScores(videos).avgEngagement == Mean(rates);
    assert |rates| == |videos|;
    MeanWithinRange(rates);
    var i :| 0 <= i < |rates| && rates[i] <= Mean(rates);
    var j :| 0 <= j < |rates| && Mean(rates) <= rates[j];
    assert VideoEngagement(videos[i]) <= Mean(rates);
    assert Mean(rates) <= VideoEngagement(videos[j]);
  }

  /** The mean of one value is that value. */
  lemma MeanOfOne(x: real)
    ensures Mean([x]) == x
  {
    assert Sum([x]) == x + Sum([]);
  }

  /** A single score is its own median, top average and recent average. */
  lemma SingleScore(x: nat)
    ensures Median([x]) == x as real
    ensures TopAverage([x]) == x as real
    ensures RecentAverage([x]) == x as real
  {
    assert TopScores([x]) == [x];
    assert RecentScores([x]) == [x];
    assert ToReals([x]) == [x as real];
    MeanOfOne(x as real);
  }

  /** With a single video, median and top-3 average are its score and the growth ratio is 1 (or 0). */
  lemma SingleVideo(v: Video)
    ensures var m := ChannelScores([v]);
      && m.medianScore == VideoScore(v) as real
      && m.top3Avg == VideoScore(v) as real
      && m.avgEngagement == VideoEngagement(v)
      && m.growthRatio == (if VideoScore(v) > 0 then 1.0 else 0.0)
  {
    var score := VideoScore(v);
    assert BaseScores([v]) == [score];
    assert EngagementRates([v]) == [VideoEngagement(v)];
    SingleScore(score);
    MeanOfOne(VideoEngagement(v));
    var x := score as real;
    var g := GrowthRatio(x, x);
    assert g == (if score > 0 then 1.0 else 0.0);
    assert ChannelScores([v]) == Weigh([v], x, VideoEngagement(v), x, g);
  }

  /**
   * One video with 1000 views, 10 likes and 2 comments: base score 1700,
   * engagement 1.4 %, and a total of 1020 + 42 + 85 + 5.
   */
  lemma OneVideoExample()
    ensures var m := ChannelScores([Video("v", "t", "2025-10-02T00:00:00Z", 1000, 10, 2)]);
      && m.medianScore == 1700.0 && m.top3Avg == 1700.0 && m.growthRatio == 1.0
      && m.avgEngagement == 1.4
      && m.totalScore == 1152.0
  {
    var v := Video("v", "t", "2025-10-02T00:00:00Z", 1000, 10, 2);
    SingleVideo(v);
    ScoreBreakdown([v]);
  }
}
