/**
 * The last steps of a run: every entry gets its badge list, then the
 * entries are ranked by total score, highest first, with a stable sort in
 * which entries without a total score count as -1.
 */
module Ranking {
  import opened Scoring
  import opened Channels
  import opened Badges

  /** The sort key: the total score, or -1 for an entry that has none. */
  function SortKey(e: Entry): (k: real)
    ensures !e.IsSuccess() ==> k < 0.0
  {
    if e.IsSuccess() then e.result.metrics.totalScore else -1.0
  }

  ghost predicate NonIncreasing(s: seq<Entry>)
  {
    forall i, j :: 0 <= i < j < |s| ==> SortKey(s[i]) >= SortKey(s[j])
  }

  /** The entries of s with sort key k, in their order in s. */
  function WithKey(s: seq<Entry>, k: real): (r: seq<Entry>)
    ensures |r| <= |s|
  {
    if |s| == 0 then []
    else (if SortKey(s[0]) == k then [s[0]] else []) + WithKey(s[1..], k)
  }

  /**
   * Insert x into a ranking in front of the first entry whose key is not
   * above x's key, so that x stays ahead of the entries with the same key.
   */
  function InsertByKey(x: Entry, s: seq<Entry>): (r: seq<Entry>)
    ensures |r| == |s| + 1
  {
    if |s| == 0 || SortKey(s[0]) <= SortKey(x) then [x] + s
    else [s[0]] + InsertByKey(x, s[1..])
  }

  /** Inserting x adds one x to the entries. */
  lemma {:induction false} InsertAddsOne(x: Entry, s: seq<Entry>)
    ensures multiset(InsertByKey(x, s)) == multiset(s) + multiset{x}
  {
    if |s| > 0 && SortKey(s[0]) > SortKey(x) {
      var tail := InsertByKey(x, s[1..]);
      InsertAddsOne(x, s[1..]);
      assert InsertByKey(x, s) == [s[0]] + tail;
      assert s == [s[0]] + s[1..];
    }
  }

  /** Inserting into a ranking yields a ranking, headed by x or by the old head. */
  lemma {:induction false} InsertKeepsRanking(x: Entry, s: seq<Entry>)
    requires NonIncreasing(s)
    ensures NonIncreasing(InsertByKey(x, s))
    ensures InsertByKey(x, s)[0] == x || (|s| > 0 && InsertByKey(x, s)[0] == s[0])
  {
    if |s| > 0 && SortKey(s[0]) > SortKey(x) {
      var tail := InsertByKey(x, s[1..]);
      InsertKeepsRanking(x, s[1..]);
      var r := [s[0]] + tail;
      assert InsertByKey(x, s) == r;
      forall i, j | 0 <= i < j < |r| ensures SortKey(r[i]) >= SortKey(r[j]) {
        if i == 0 {
          assert r[j] == tail[j - 1];
          assert tail[0] == x || tail[0] == s[1];
        } else {
          assert r[i] == tail[i - 1] && r[j] == tail[j - 1];
        }
      }
    } else {
      var r := [x] + s;
      forall i, j | 0 <= i < j < |r| ensures SortKey(r[i]) >= SortKey(r[j]) {
        if i > 0 {
          assert r[i] == s[i - 1] && r[j] == s[j - 1];
        } else {
          assert r[j] == s[j - 1];
        }
      }
    }
  }

  lemma MultisetOfCons(s: seq<Entry>)
    requires |s| > 0
    ensures multiset(s) == multiset(s[1..]) + multiset{s[0]}
  {
    assert s == [s[0]] + s[1..];
  }

  /**
   * `sorted(..., key=total_score or -1, reverse=True)`: a permutation of the
   * entries, highest key first.
   */
  function RankByScore(s: seq<Entry>): (r: seq<Entry>)
    ensures |r| == |s|
    ensures NonIncreasing(r)
    ensures multiset(r) == multiset(s)
  {
    if |s| == 0 then []
    else
      var rest := RankByScore(s[1..]);
      InsertKeepsRanking(s[0], rest);
      InsertAddsOne(s[0], rest);
      MultisetOfCons(s);
      InsertByKey(s[0], rest)
  }

  lemma WithKeyOfCons(e: Entry, t: seq<Entry>, k: real)
    ensures WithKey([e] + t, k) == (if SortKey(e) == k then [e] else []) + WithKey(t, k)
  {
    assert ([e] + t)[1..] == t;
  }

  /** Inserting x adds x in front of the entries with x's key and leaves the other keys alone. */
  lemma {:induction false} InsertKeepsKeyOrder(x: Entry, s: seq<Entry>, k: real)
    ensures WithKey(InsertByKey(x, s), k) == (if SortKey(x) == k then [x] else []) + WithKey(s, k)
  {
    if |s| == 0 || SortKey(s[0]) <= SortKey(x) {
      WithKeyOfCons(x, s, k);
    } else {
      var own := if SortKey(x) == k then [x] else [];
      var head := if SortKey(s[0]) == k then [s[0]] else [];
      InsertKeepsKeyOrder(x, s[1..], k);
      WithKeyOfCons(s[0], InsertByKey(x, s[1..]), k);
      assert own == [] || head == [];
      assert head + (own + WithKey(s[1..], k)) == own + (head + WithKey(s[1..], k));
    }
  }

  /**
   * The ranking is stable: for every key, the entries with that key appear
   * in the same order as in the input.
   */
  lemma {:induction false} RankingIsStable(s: seq<Entry>, k: real)
    ensures WithKey(RankByScore(s), k) == WithKey(s, k)
  {
    if |s| > 0 {
      RankingIsStable(s[1..], k);
      InsertKeepsKeyOrder(s[0], RankByScore(s[1..]), k);
    }
  }

  /** In a ranking where every successful entry has a non-negative key, the entries without one come last. */
  lemma UnscoredLast(r: seq<Entry>)
    requires NonIncreasing(r)
    requires forall j :: 0 <= j < |r| && r[j].IsSuccess() ==> SortKey(r[j]) >= 0.0
    ensures forall i, j :: 0 <= i < |r| && 0 <= j < |r| && !r[i].IsSuccess() && r[j].IsSuccess() ==> j < i
  {
  }

  /** A successful entry scored by the calculator has a non-negative sort key. */
  lemma CalculatedKeyNonNegative(e: Entry)
    requires ScoredByCalculator(e) && e.IsSuccess()
    ensures SortKey(e) >= 0.0
  {
    assert e.result.metrics == ChannelScores(e.result.metrics.videos);
  }

  /**
   * When every successful entry's total is non-negative (as the score
   * calculation guarantees), every entry without a score is ranked below
   * every successful one.
   */
  lemma NotFoundRankedLast(s: seq<Entry>)
    requires forall i :: 0 <= i < |s| ==> ScoredByCalculator(s[i])
    ensures var r := RankByScore(s);
      forall i, j :: 0 <= i < |r| && 0 <= j < |r| && !r[i].IsSuccess() && r[j].IsSuccess() ==> j < i
  {
    var r := RankByScore(s);
    forall j | 0 <= j < |r| && r[j].IsSuccess() ensures SortKey(r[j]) >= 0.0 {
      assert r[j] in multiset(s);
      var i :| 0 <= i < |s| && s[i] == r[j];
      CalculatedKeyNonNegative(s[i]);
    }
    UnscoredLast(r);
  }

  /**
   * The badge-assignment loop: each successful entry gets the badges the
   * badge calculation gives it against the current entry list, every other
   * entry an empty badge list. Nothing but the badges changes.
   */
  method AssignBadges(entries: array<Entry>)
    modifies entries
    ensures forall i :: 0 <= i < entries.Length ==>
      entries[i] == old(entries[i]).(badges := BadgesFor(old(entries[i]), old(entries[..])))
    ensures forall i :: 0 <= i < entries.Length && !entries[i].IsSuccess() ==> entries[i].badges == []
    ensures Results(entries[..]) == Results(old(entries[..]))
  {
    ghost var original := entries[..];
    for i := 0 to entries.Length
      invariant forall j :: 0 <= j < i ==> entries[j] == original[j].(badges := BadgesFor(original[j], original))
      invariant forall j :: i <= j < entries.Length ==> entries[j] == original[j]
      invariant Results(entries[..]) == Results(original)
    {
      var channelData := entries[i];
      if channelData.IsSuccess() {
        var badges := CalculateBadges(channelData, entries[..]);
        BadgesDependOnResultsOnly(channelData, original[i], entries[..], original);
        entries[i] := channelData.(badges := badges);
      } else {
        entries[i] := channelData.(badges := []);
      }
      assert Results(entries[..]) == Results(original) by {
        assert forall j :: 0 <= j < entries.Length ==> entries[..][j].result == original[j].result;
      }
    }
  }
}
