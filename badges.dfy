/**
 * The badge system: four badges for fixed thresholds on a channel's own
 * metrics, and the all-rounder badge for a channel that is at least average
 * on all four metrics, the averages taken over the successful entries of
 * the whole run.
 */
module Badges {
  import opened Stats
  import opened Scoring
  import opened Channels

  const StableThreshold: real := 5000.0
  const EngagementThreshold: real := 5.0
  const ViralMultiplier: real := 10.0
  const GrowthThreshold: real := 1.5

  /** The metrics of the successful entries, in run order. */
  function SuccessMetrics(all: seq<Entry>): (r: seq<Metrics>)
    ensures |r| <= |all|
    ensures r == [] <==> forall i :: 0 <= i < |all| ==> !all[i].IsSuccess()
  {
    if |all| == 0 then []
    else
      var rest := SuccessMetrics(all[1..]);
      assert forall i :: 0 < i < |all| ==> all[i] == all[1..][i - 1];
      if all[0].IsSuccess() then [all[0].result.metrics] + rest else rest
  }

  /** The successful metrics are exactly the metrics of the successful entries. */
  lemma {:induction false} SuccessMetricsMembers(all: seq<Entry>)
    ensures forall m :: m in SuccessMetrics(all) <==> Scored(m) in Results(all)
  {
    if |all| > 0 {
      SuccessMetricsMembers(all[1..]);
      assert Results(all) == [all[0].result] + Results(all[1..]);
    }
  }

  /** The four population means the all-rounder badge compares against. */
  datatype Averages = Averages(median: real, engagement: real, top3: real, growth: real)

  /**
   * The means of median score, engagement, top-3 average and growth ratio
   * over the successful entries, or None when there is none.
   */
  function PopulationAverages(all: seq<Entry>): (r: Option<Averages>)
    ensures r.None? <==> forall i :: 0 <= i < |all| ==> !all[i].IsSuccess()
  {
    var ms := SuccessMetrics(all);
    if |ms| == 0 then None
    else Some(Averages(
      Mean(seq(|ms|, i requires 0 <= i < |ms| => ms[i].medianScore)),
      Mean(seq(|ms|, i requires 0 <= i < |ms| => ms[i].avgEngagement)),
      Mean(seq(|ms|, i requires 0 <= i < |ms| => ms[i].top3Avg)),
      Mean(seq(|ms|, i requires 0 <= i < |ms| => ms[i].growthRatio))))
  }

  /** Metrics at least as good as the averages on all four counts. */
  predicate AtLeastAverage(m: Metrics, avg: Averages)
  {
    && m.medianScore >= avg.median
    && m.avgEngagement >= avg.engagement
    && m.top3Avg >= avg.top3
    && m.growthRatio >= avg.growth
  }

  /** Whether a channel with metrics m earns badge b in a run with entries all; every threshold is inclusive. */
  function Earns(b: Badge, m: Metrics, all: seq<Entry>): (r: bool)
    ensures b == Stable && m.medianScore == StableThreshold ==> r
    ensures b == EngagementKing && m.avgEngagement == EngagementThreshold ==> r
    ensures b == ViralMaker && m.medianScore == 0.0 && m.top3Avg >= 0.0 ==> r
    ensures b == GrowthRocket && m.growthRatio == GrowthThreshold ==> r
    ensures b == AllRounder && r ==> exists i :: 0 <= i < |all| && all[i].IsSuccess()
  {
    match b
    case Stable => m.medianScore >= StableThreshold
    case EngagementKing => m.avgEngagement >= EngagementThreshold
    case ViralMaker => m.top3Avg >= m.medianScore * ViralMultiplier
    case GrowthRocket => m.growthRatio >= GrowthThreshold
    case AllRounder =>
      var avg := PopulationAverages(all);
      avg.Some? && AtLeastAverage(m, avg.value)
  }

  /** Badges listed in strictly increasing position. */
  predicate InBadgeOrder(bs: seq<Badge>)
  {
    forall i, j :: 0 <= i < j < |bs| ==> bs[i].Position() < bs[j].Position()
  }

  /** The one-badge list [b] when b is earned, otherwise the empty list. */
  function BadgeIf(b: Badge, m: Metrics, all: seq<Entry>): (r: seq<Badge>)
    ensures forall x :: x in r <==> x == b && Earns(b, m, all)
    ensures forall i :: 0 <= i < |r| ==> r[i] == b
  {
    if Earns(b, m, all) then [b] else []
  }

  /** The badge at position p of the order 🎯 💬 🔥 📈 ⭐. */
  function BadgeAt(p: nat): (b: Badge)
    requires p < 5
    ensures b.Position() == p
  {
    [Stable, EngagementKing, ViralMaker, GrowthRocket, AllRounder][p]
  }

  /** The earned badges among the first n of the order, as appending them one by one builds them. */
  function EarnedUpTo(m: Metrics, all: seq<Entry>, n: nat): seq<Badge>
    requires n <= 5
  {
    if n == 0 then [] else EarnedUpTo(m, all, n - 1) + BadgeIf(BadgeAt(n - 1), m, all)
  }

  /**
   * The badges of a channel: none unless its status is success; otherwise
   * each earned badge in the order 🎯 💬 🔥 📈 ⭐.
   */
  function BadgesFor(e: Entry, all: seq<Entry>): (r: seq<Badge>)
    ensures !e.IsSuccess() ==> r == []
  {
    if !e.IsSuccess() then [] else EarnedUpTo(e.result.metrics, all, 5)
  }

  lemma {:induction false} EarnedUpToMembers(m: Metrics, all: seq<Entry>, n: nat)
    requires n <= 5
    ensures forall b :: b in EarnedUpTo(m, all, n) <==> b.Position() < n && Earns(b, m, all)
  {
    if n > 0 {
      EarnedUpToMembers(m, all, n - 1);
      var c := BadgeAt(n - 1);
      forall b ensures b in EarnedUpTo(m, all, n) <==> b.Position() < n && Earns(b, m, all) {
        assert b.Position() == n - 1 <==> b == c;
      }
    }
  }

  /** A successful channel's badge list holds exactly the badges it earns. */
  lemma BadgesAreEarned(e: Entry, all: seq<Entry>)
    requires e.IsSuccess()
    ensures forall b :: b in BadgesFor(e, all) <==> Earns(b, e.result.metrics, all)
  {
    EarnedUpToMembers(e.result.metrics, all, 5);
  }

  /** All positions in the list are below p. */
  predicate PositionsBelow(bs: seq<Badge>, p: nat)
  {
    forall i :: 0 <= i < |bs| ==> bs[i].Position() < p
  }

  lemma {:induction false} EarnedUpToInOrder(m: Metrics, all: seq<Entry>, n: nat)
    requires n <= 5
    ensures InBadgeOrder(EarnedUpTo(m, all, n)) && PositionsBelow(EarnedUpTo(m, all, n), n)
  {
    if n > 0 {
      EarnedUpToInOrder(m, all, n - 1);
      var a := EarnedUpTo(m, all, n - 1);
      var piece := BadgeIf(BadgeAt(n - 1), m, all);
      var r: seq<Badge> := a + piece;
      assert EarnedUpTo(m, all, n) == r;
      forall i, j | 0 <= i < j < |r| ensures r[i].Position() < r[j].Position() {
        if j >= |a| {
          assert r[j] == piece[j - |a|];
        }
      }
    }
  }

  /** Badge lists never repeat a badge and always follow the order 🎯 💬 🔥 📈 ⭐. */
  lemma BadgesInOrder(e: Entry, all: seq<Entry>)
    ensures InBadgeOrder(BadgesFor(e, all))
  {
    if e.IsSuccess() {
      EarnedUpToInOrder(e.result.metrics, all, 5);
    }
  }

  /**
   * The badge calculation for one channel: an empty list unless the status
   * is success; otherwise each earned badge appended in turn.
   */
  method CalculateBadges(channelData: Entry, allChannels: seq<Entry>) returns (badges: seq<Badge>)
    ensures badges == BadgesFor(channelData, allChannels)
  {
    if !channelData.IsSuccess() {
      return [];
    }
    var m := channelData.result.metrics;
    badges := [];

    if m.medianScore >= StableThreshold {
      badges := badges + [Stable];
    }
    assert badges == EarnedUpTo(m, allChannels, 1);
    if m.avgEngagement >= EngagementThreshold {
      badges := badges + [EngagementKing];
    }
    assert badges == EarnedUpTo(m, allChannels, 2);
    if m.top3Avg >= m.medianScore * ViralMultiplier {
      badges := badges + [ViralMaker];
    }
    assert badges == EarnedUpTo(m, allChannels, 3);
    if m.growthRatio >= GrowthThreshold {
      badges := badges + [GrowthRocket];
    }
    assert badges == EarnedUpTo(m, allChannels, 4);
    assert BadgesFor(channelData, allChannels) == badges + BadgeIf(AllRounder, m, allChannels);

    var successfulChannels := SuccessMetrics(allChannels);
    if |successfulChannels| > 0 {
      var avgMedian := Mean(seq(|successfulChannels|, i requires 0 <= i < |successfulChannels| => successfulChannels[i].medianScore));
      var avgEngagementAll := Mean(seq(|successfulChannels|, i requires 0 <= i < |successfulChannels| => successfulChannels[i].avgEngagement));
      var avgTop3 := Mean(seq(|successfulChannels|, i requires 0 <= i < |successfulChannels| => successfulChannels[i].top3Avg));
      var avgGrowth := Mean(seq(|successfulChannels|, i requires 0 <= i < |successfulChannels| => successfulChannels[i].growthRatio));
      assert PopulationAverages(allChannels) == Some(Averages(avgMedian, avgEngagementAll, avgTop3, avgGrowth));
      if m.medianScore >= avgMedian && m.avgEngagement >= avgEngagementAll && m.top3Avg >= avgTop3 && m.growthRatio >= avgGrowth {
        badges := badges + [AllRounder];
      }
    } else {
      assert PopulationAverages(allChannels) == None;
    }
  }

  /**
   * The badge list is determined by its contents: a list in badge order that
   * holds exactly the earned badges is the one the calculation returns.
   */
  lemma BadgeListDetermined(e: Entry, all: seq<Entry>, other: seq<Badge>)
    requires e.IsSuccess()
    requires forall b :: b in other <==> Earns(b, e.result.metrics, all)
    requires InBadgeOrder(other)
    ensures other == BadgesFor(e, all)
  {
    BadgesAreEarned(e, all);
    BadgesInOrder(e, all);
    OrderedListUnique(other, BadgesFor(e, all));
  }

  /** In a list in strict badge order, the tail holds exactly the members placed after the head. */
  lemma OrderedTail(a: seq<Badge>)
    requires |a| > 0
    requires forall i, j :: 0 <= i < j < |a| ==> a[i].Position() < a[j].Position()
    ensures forall x :: x in a[1..] <==> x in a && a[0].Position() < x.Position()
  {
    forall x | x in a ensures x in a[1..] <==> a[0].Position() < x.Position() {
      var i :| 0 <= i < |a| && a[i] == x;
      if i > 0 {
        assert a[1..][i - 1] == x;
      }
    }
  }

  /** Two lists in strict badge order with the same members are equal. */
  lemma {:induction false} OrderedListUnique(a: seq<Badge>, b: seq<Badge>)
    requires forall x :: x in a <==> x in b
    requires forall i, j :: 0 <= i < j < |a| ==> a[i].Position() < a[j].Position()
    requires forall i, j :: 0 <= i < j < |b| ==> b[i].Position() < b[j].Position()
    ensures a == b
  {
    assert |a| == 0 <==> |b| == 0 by {
      if |a| > 0 { assert a[0] in b; }
      if |b| > 0 { assert b[0] in a; }
    }
    if |a| > 0 {
      OrderedTail(a);
      OrderedTail(b);
      assert a[0] in b && b[0] in a;
      assert a[0].Position() == b[0].Position();
      OrderedListUnique(a[1..], b[1..]);
      assert a == [a[0]] + a[1..] && b == [b[0]] + b[1..];
    }
  }

  /** The statuses and metrics of a run's entries, without names and badges. */
  function Results(all: seq<Entry>): (r: seq<ChannelResult>)
    ensures |r| == |all|
  {
    seq(|all|, i requires 0 <= i < |all| => all[i].result)
  }

  /** Collecting the successful metrics distributes over concatenation. */
  lemma {:induction false} SuccessMetricsAppend(a: seq<Entry>, b: seq<Entry>)
    ensures SuccessMetrics(a + b) == SuccessMetrics(a) + SuccessMetrics(b)
  {
    if |a| > 0 {
      assert (a + b)[0] == a[0];
      assert (a + b)[1..] == a[1..] + b;
      SuccessMetricsAppend(a[1..], b);
      var head := if a[0].IsSuccess() then [a[0].result.metrics] else [];
      assert SuccessMetrics(a) == head + SuccessMetrics(a[1..]);
      assert SuccessMetrics(a + b) == head + SuccessMetrics(a[1..] + b);
    } else {
      assert a + b == b;
    }
  }

  /** The successful metrics depend only on the entries' results. */
  lemma {:induction false} SuccessMetricsOfResults(a: seq<Entry>, b: seq<Entry>)
    requires Results(a) == Results(b)
    ensures SuccessMetrics(a) == SuccessMetrics(b)
  {
    if |a| > 0 {
      assert a[0].result == Results(a)[0] == Results(b)[0] == b[0].result;
      assert Results(a[1..]) == Results(a)[1..];
      assert Results(b[1..]) == Results(b)[1..];
      SuccessMetricsOfResults(a[1..], b[1..]);
    }
  }

  /**
   * A channel's badges depend on its own result and on the results of the
   * run, not on names, URLs or badges already assigned.
   */
  lemma BadgesDependOnResultsOnly(e: Entry, f: Entry, a: seq<Entry>, b: seq<Entry>)
    requires e.result == f.result && Results(a) == Results(b)
    ensures BadgesFor(e, a) == BadgesFor(f, b)
  {
    SuccessMetricsOfResults(a, b);
    assert PopulationAverages(a) == PopulationAverages(b);
    if e.IsSuccess() {
      EarnedWithSameAverages(e.result.metrics, a, b, 5);
    }
  }

  lemma {:induction false} EarnedWithSameAverages(m: Metrics, a: seq<Entry>, b: seq<Entry>, n: nat)
    requires n <= 5 && PopulationAverages(a) == PopulationAverages(b)
    ensures EarnedUpTo(m, a, n) == EarnedUpTo(m, b, n)
  {
    if n > 0 {
      EarnedWithSameAverages(m, a, b, n - 1);
      assert Earns(BadgeAt(n - 1), m, a) == Earns(BadgeAt(n - 1), m, b);
    }
  }

  /** Entries that are not successful, wherever they sit in the run, leave the population averages unchanged. */
  lemma NotFoundEntriesIgnored(a: seq<Entry>, e: Entry, b: seq<Entry>)
    requires !e.IsSuccess()
    ensures PopulationAverages(a + [e] + b) == PopulationAverages(a + b)
  {
    SuccessMetricsAppend(a + [e], b);
    SuccessMetricsAppend(a, [e]);
    SuccessMetricsAppend(a, b);
    assert SuccessMetrics([e]) == [] by {
      assert [e][1..] == [];
    }
    assert SuccessMetrics(a + [e] + b) == SuccessMetrics(a + b);
  }

  /** Without any successful entry in the run, nobody is an all-rounder. */
  lemma NoSuccessNoAllRounder(e: Entry, all: seq<Entry>)
    requires forall i :: 0 <= i < |all| ==> !all[i].IsSuccess()
    ensures AllRounder !in BadgesFor(e, all)
  {
    NoSuccessNoMetrics(all);
    if e.IsSuccess() {
      BadgesAreEarned(e, all);
    }
  }

  lemma {:induction false} NoSuccessNoMetrics(all: seq<Entry>)
    requires forall i :: 0 <= i < |all| ==> !all[i].IsSuccess()
    ensures SuccessMetrics(all) == []
  {
    if |all| > 0 {
      NoSuccessNoMetrics(all[1..]);
    }
  }

  /** A channel that is the only successful entry of its run is an all-rounder. */
  lemma SoleSuccessIsAllRounder(e: Entry, all: seq<Entry>)
    requires e.IsSuccess() && e in all
    requires forall i :: 0 <= i < |all| && all[i].IsSuccess() ==> all[i].result == e.result
    ensures AllRounder in BadgesFor(e, all)
  {
    var m := e.result.metrics;
    var ms := SuccessMetrics(all);
    var results := Results(all);
    SuccessMetricsMembers(all);
    var k :| 0 <= k < |all| && all[k] == e;
    assert results[k] == Scored(m);
    assert m in ms;
    forall i | 0 <= i < |ms| ensures ms[i] == m {
      assert ms[i] in ms;
      var j :| 0 <= j < |results| && results[j] == Scored(ms[i]);
      assert all[j].result == Scored(ms[i]);
    }
    MeanOfConstant(seq(|ms|, i requires 0 <= i < |ms| => ms[i].medianScore), m.medianScore);
    MeanOfConstant(seq(|ms|, i requires 0 <= i < |ms| => ms[i].avgEngagement), m.avgEngagement);
    MeanOfConstant(seq(|ms|, i requires 0 <= i < |ms| => ms[i].top3Avg), m.top3Avg);
    MeanOfConstant(seq(|ms|, i requires 0 <= i < |ms| => ms[i].growthRatio), m.growthRatio);
    assert Earns(AllRounder, m, all);
    BadgesAreEarned(e, all);
  }

  /**
   * A channel without videos in the window earns 🔥, since 0 >= 10 * 0, and
   * none of 🎯, 💬 and 📈.
   */
  lemma EmptyChannelBadges(e: Entry, all: seq<Entry>)
    requires e.result == Scored(ChannelScores([]))
    ensures ViralMaker in BadgesFor(e, all)
    ensures Stable !in BadgesFor(e, all) && EngagementKing !in BadgesFor(e, all) && GrowthRocket !in BadgesFor(e, all)
  {
    EmptyChannelIsZero();
    BadgesAreEarned(e, all);
  }
}
