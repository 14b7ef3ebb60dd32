# YouTube leaderboard: scoring, badges and ranking

This project models the scoring and badge engine of the YouTube challenge leaderboard (`leaderboard.py`) and the ranking step that uses it.

A run works like this:

- It collects, for every participating channel, the videos published inside the evaluation window.
- It turns each channel's videos into a metrics record:
  - the median base score;
  - the mean engagement rate;
  - the mean of the top three scores;
  - a growth ratio;
  - four weighted sub-scores and their total.
- It awards up to five badges per channel:
  - 🎯 stable;
  - 💬 engagement king;
  - 🔥 viral maker;
  - 📈 growth rocket;
  - ⭐ all-rounder.
- It ranks the channels by total score. A channel whose id could not be found is ranked with the key -1.

The modules are:

- `Stats` (`stats.dfy`) holds the arithmetic the calculator borrows from Python's `statistics` module and from `sorted`:
  - the sum and mean over exact reals;
  - an ascending and a descending sort with permutation proofs;
  - the median.
- `Scoring` (`scoring.dfy`) holds the score calculator:
  - the per-video base score and engagement rate;
  - the channel aggregates;
  - the weighting;
  - the method that collects the per-video values in a loop, as the source does.
- `Channels` (`channels.dfy`) holds the leaderboard entry (status, metrics, badges) and how one channel's entry is built, including the not-found case.
- `Badges` (`badges.dfy`) holds the badge rules, as a specification function and as the step-by-step method that appends badges to a list.
- `Ranking` (`ranking.dfy`) holds two things:
  - the badge-assignment loop over the entry list, which is updated in place (an array);
  - the stable descending sort by total score with the -1 sentinel.
- `Text` (`text.dfy`) holds two helpers:
  - the publish-window test on ISO-8601 timestamps, which compares strings the way Python does;
  - the handle of a channel URL, the part after the last `@`.

Ratios and means are exact reals. Video counts (views, likes, comments) are natural numbers.

Facts about `leaderboard.py` that the model keeps as written:

- The stable badge threshold is 5000 (line 48).
- The channel engagement is the mean of the per-video rates (line 265).
- The top slice and the recent slice both take `min(3, n)` scores, however few videos there are (lines 268-276).
- The viral check has no `median > 0` guard (line 322). A channel with median 0, including one without videos, earns 🔥.
- The all-rounder badge compares against the means over the run's successful entries (lines 330-341).
- `MIN_VIDEOS` (line 39) is not used anywhere.
- One video with 1000 views, 10 likes and 2 comments totals 1020 + 42 + 85 + 5 = 1152 (`Scoring.OneVideoExample`).

## Model

| member | source | states |
|---|---|---|
| Stats.Mean | leaderboard.py:265 | `statistics.mean` of a non-empty list: the mean times the length is the sum |
| Stats.MeanWithinRange | leaderboard.py:265 | a mean lies between a smallest and a largest element |
| Stats.MeanOfConstant | leaderboard.py:332-335 | the mean of a list of equal values is that value |
| Stats.SortAscending | leaderboard.py:262 | sorting gives an ascending permutation of the scores |
| Stats.SortDescending | leaderboard.py:268 | `sorted(..., reverse=True)` gives a descending permutation of the scores |
| Stats.DescendingSplit | leaderboard.py:268 | cutting a descending list: the two parts make up the list, and every front element is at least every back element |
| Stats.Median | leaderboard.py:262 | `statistics.median` is non-negative for scores, and is the only score of a one-element list |
| Stats.MedianWithinRange | leaderboard.py:262 | the median lies between a smallest and a largest score |
| Stats.MedianSplitsInHalf | leaderboard.py:262 | at most half of the scores lie strictly below the median, and at most half strictly above it |
| Scoring.BaseScore | leaderboard.py:213-216 | the base score is at least the views, 50×likes and 100×comments, and is 0 exactly when all three are 0 |
| Scoring.EngagementRate | leaderboard.py:218-222 | the rate is 0 without views (no division by zero); otherwise rate × views = (likes + 2×comments) × 100; it is never negative |
| Scoring.TopScores | leaderboard.py:268 | the top slice has min(3, n) scores, is descending, and is drawn from the scores (a sub-multiset) |
| Scoring.RecentScores | leaderboard.py:273-274 | the recent slice has min(3, n) scores and is the tail of the score list |
| Scoring.TopScoresAreLargest | leaderboard.py:268 | the top slice has min(3, n) scores; together with the remaining scores it makes up all scores; none of the remaining scores exceeds any top score |
| Scoring.RecentScoresAreLast | leaderboard.py:273-274 | the recent slice holds the base scores of the last min(3, n) videos of the list, in list order |
| Scoring.TopAverage | leaderboard.py:268-269 | the top-3 mean is non-negative |
| Scoring.RecentAverage | leaderboard.py:273-275 | the recent mean is non-negative |
| Scoring.AverageEngagement | leaderboard.py:265 | the mean engagement is non-negative |
| Scoring.GrowthRatio | leaderboard.py:276 | the ratio is 0 when the median is not positive; otherwise ratio × median = recent mean; it is non-negative for a non-negative recent mean |
| Scoring.Weigh | leaderboard.py:279-298 | the record keeps the videos, their count and the four metrics; the total of non-negative metrics is non-negative |
| Scoring.WeighFacts | leaderboard.py:279-284 | total = 0.6×median + 30×engagement + 0.05×top3 + 5×growth, and the total is the sum of the four sub-scores |
| Scoring.ChannelScores | leaderboard.py:224-299 | the record keeps the videos and their count; all four metrics and the total are non-negative |
| Scoring.BaseScores | leaderboard.py:250-259 | one base score per video, in list order; a score is 0 exactly when its video has no views, likes or comments |
| Scoring.EngagementRates | leaderboard.py:250-259 | one engagement rate per video, in list order; every rate is non-negative, and 0 for a video without views |
| Scoring.CollectVideoScores | leaderboard.py:246-259 | the loop collects each video's base score and engagement rate, in list order |
| Scoring.CalculateChannelScores | leaderboard.py:224-299 | the step-by-step calculation returns exactly the record `ChannelScores` specifies |
| Scoring.WeightsSumToOne | leaderboard.py:42-45 | the four weights sum to 1 |
| Scoring.ZeroMetrics | leaderboard.py:230-244 | the fixed record is what weighing four zero metrics of an empty video list gives |
| Scoring.EmptyChannelIsZero | leaderboard.py:227-244 | no videos gives video count 0, an empty video list, and every numeric field 0 |
| Scoring.MeanNonNegative | leaderboard.py:265 | a mean of non-negative values is non-negative |
| Scoring.ScoreBreakdown | leaderboard.py:279-284 | each sub-score is its metric times its weight (engagement and growth first times 100), and the total is their sum |
| Scoring.TopAveragePositive | leaderboard.py:268-269 | one positive score makes the top-3 mean positive |
| Scoring.Top3AvgPositive | leaderboard.py:268-269 | a channel with one video scoring above 0 has a positive top-3 mean |
| Scoring.GrowthRatioMeaning | leaderboard.py:273-276 | growth is 0 when the median is 0; otherwise it is the mean of the last min(3, n) scores of the list over the median |
| Scoring.ChannelMedian | leaderboard.py:262 | the channel median is the median of the base scores: it lies between two video scores, and splits the videos in halves |
| Scoring.ChannelEngagement | leaderboard.py:265 | the channel engagement is the mean of the per-video rates, and lies between the lowest and the highest rate |
| Scoring.MeanOfOne | leaderboard.py:265 | the mean of one value is that value |
| Scoring.SingleScore | leaderboard.py:262-275 | one score is its own median, top-3 mean and recent mean |
| Scoring.SingleVideo | leaderboard.py:262-276 | with one video, the median and top-3 mean are its score, the engagement is its rate, and the growth is 1 (0 for a zero score) |
| Scoring.OneVideoExample | leaderboard.py:213-284 | 1000 views, 10 likes and 2 comments give median 1700, engagement 1.4, growth 1 and a total of 1152 |
| Channels.Badge.Symbol | leaderboard.py:313-341 | each badge is shown as one emoji character |
| Channels.SymbolsDistinct | leaderboard.py:313-341 | different badges are shown as different emoji |
| Channels.CollectEntry | leaderboard.py:502-524 | an unresolved channel id gives a not-found entry; otherwise a success entry holding the score calculation of the window's videos; name and URL are kept and badges come later |
| Badges.SuccessMetrics | leaderboard.py:330 | at most one metrics record per entry; none exactly when no entry is successful |
| Badges.PopulationAverages | leaderboard.py:330-335 | the all-rounder averages exist exactly when some entry is successful |
| Badges.Earns | leaderboard.py:313-341 | each threshold is inclusive (a median of exactly 5000, an engagement of exactly 5, a growth of exactly 1.5 earn their badge); median 0 with a non-negative top-3 mean earns 🔥; ⭐ needs a successful entry in the run |
| Badges.BadgeIf | leaderboard.py:313-327 | one threshold step appends the badge exactly when it is earned |
| Badges.BadgeAt | leaderboard.py:311-341 | the badge order 🎯 💬 🔥 📈 ⭐ gives each badge its position |
| Badges.BadgesFor | leaderboard.py:308-309 | an entry that is not successful gets no badges |
| Badges.BadgesAreEarned | leaderboard.py:311-341 | a successful channel's list holds exactly the badges it earns: median ≥ 5000, engagement ≥ 5, top-3 mean ≥ 10×median, growth ≥ 1.5, and all four at least the means over the successful entries; every threshold is inclusive |
| Badges.BadgesInOrder | leaderboard.py:311-343 | the list never repeats a badge and follows the order 🎯 💬 🔥 📈 ⭐ |
| Badges.BadgeListDetermined | leaderboard.py:311-343 | any duplicate-free list in badge order with exactly the earned badges is the badge list |
| Badges.OrderedListUnique | leaderboard.py:311-343 | two lists in strict badge order with the same members are equal |
| Badges.CalculateBadges | leaderboard.py:305-343 | the method that appends badge by badge returns exactly `BadgesFor` |
| Badges.SuccessMetricsMembers | leaderboard.py:330 | the metrics averaged are exactly those of the successful entries |
| Badges.BadgesDependOnResultsOnly | leaderboard.py:330-341 | the badges depend only on the statuses and metrics of the run, not on names, URLs or badges already assigned |
| Badges.NotFoundEntriesIgnored | leaderboard.py:330-335 | an entry that is not successful, wherever it is, leaves the all-rounder averages unchanged |
| Badges.NoSuccessNoAllRounder | leaderboard.py:330-331 | without a successful entry nobody earns ⭐ |
| Badges.SoleSuccessIsAllRounder | leaderboard.py:330-341 | the only successful entry of a run (possibly listed more than once) always earns ⭐ |
| Badges.EmptyChannelBadges | leaderboard.py:313-327 | a channel without videos earns 🔥 (0 ≥ 10×0) but not 🎯, 💬 or 📈 |
| Ranking.SortKey | leaderboard.py:536 | an entry without a total score gets a negative key (-1) |
| Ranking.RankByScore | leaderboard.py:534-538 | the ranking is a permutation of the entries, non-increasing in total score, with a missing score read as -1 |
| Ranking.RankingIsStable | leaderboard.py:534-538 | for every key, the entries with that key keep their input order |
| Ranking.UnscoredLast | leaderboard.py:534-538 | in a ranking where successful keys are non-negative, every unscored entry comes after every successful one |
| Ranking.CalculatedKeyNonNegative | leaderboard.py:224-299 | a successful entry from the score calculation has a non-negative key |
| Ranking.NotFoundRankedLast | leaderboard.py:509-512 | every not-found entry is ranked below every successful entry |
| Ranking.AssignBadges | leaderboard.py:527-531 | every successful entry gets the badges computed against the run's entries; every other entry gets an empty list; nothing but the badges changes |
| Text.LexLeq | leaderboard.py:186 | Python's string `<=`: a prefix comes first, and a string with a larger first character comes later |
| Text.InWindow | leaderboard.py:186 | the inclusive window test admits a timestamp only when start ≤ end |
| Text.LexLeqAtIndex | leaderboard.py:186 | strings that agree before index k and differ at k compare by their characters at k |
| Text.LexLeqReflexive | leaderboard.py:186 | string order is reflexive |
| Text.LexLeqAntisymmetric | leaderboard.py:186 | string order is antisymmetric |
| Text.LexLeqTransitive | leaderboard.py:186 | string order is transitive |
| Text.LexLeqTotal | leaderboard.py:186 | string order is total |
| Text.WindowBounds | leaderboard.py:186 | the window admits something only when start ≤ end, and then admits both ends (inclusive) |
| Text.CampaignWindowOrdered | leaderboard.py:36-37 | the run's window start is not after its end, and both ends are inside |
| Text.CampaignWindowExcludesEve | leaderboard.py:36 | a video from the last second before the start is outside the window |
| Text.CampaignWindowExcludesAfter | leaderboard.py:37 | a video from the first second after the end is outside the window |
| Text.ChannelHandle | leaderboard.py:366 | the handle contains no `@`, ends the URL, and is preceded by `@` unless it is the whole URL |
| Text.HandleIsLastPiece | leaderboard.py:424 | any suffix without `@` that is the whole URL or follows an `@` is the handle |
| Text.HandleOfChannelUrl | leaderboard.py:366 | the handle of `https://www.youtube.com/@name` is `name` |

## Left out

- The YouTube Data API client (`YouTubeAPI`, lines 54-206) is left out: channel-id resolution, video listing, pagination and network errors. Only its window test (line 186) is modelled. A channel's videos reach `Channels.CollectEntry` as a parameter, with `None` for a channel whose id was not found.
- Reading `channels.json` (`load_channels`) and exiting on errors are left out, as are the Excel and JSON output (`create_excel`, `create_json`, the wall-clock timestamp, Python `round`) and all logging. All of these are I/O.
- `CHANNELS_FILE` (line 38) names an input file, so it is not modelled.
- Floating-point rounding is not modelled. Means, ratios and weights are exact reals, so the model's totals are the values the float computation approximates.
- Python dictionaries are modelled as datatypes:
  - An entry is a value.
  - `main`'s in-place update of each entry's `badges` key is an update of an array element.
  - `main` passes the list it is updating to the badge calculation. The model proves that the badges already assigned cannot change the result (`Badges.BadgesDependOnResultsOnly`).
- The order of a channel's video list is taken as given by the video listing of the API client, which is not modelled. Nothing in the code sorts the list by publish time, so "recent" means the last entries of that list.
- Badges are a datatype. The emoji strings are given by `Badge.Symbol`.
- `Ranking.RankByScore` is an insertion sort, specified by what Python's `sorted` guarantees: a permutation, in key order, and stable. It is not Python's Timsort, which gives the same result for a stable sort.
- Channel-id lookup by handle and the username split at line 66 are part of the API client and are not modelled. The split itself is the same as `Text.ChannelHandle`.
- The browser front end (`script.js`, `docs/`) and the one-off diagnostic scripts are not part of this model.
- The badge test script is not part of this model. It targets a different revision of the badge code, with a different signature and different thresholds.
