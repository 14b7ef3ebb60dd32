/**
 * One leaderboard entry per channel of the run: the participant's name and
 * channel URL, what the run found for the channel, and the badges it earned.
 */
module Channels {
  import opened Scoring

  /** The five badges, in the order they are awarded. */
  datatype Badge = Stable | EngagementKing | ViralMaker | GrowthRocket | AllRounder
  {
    /** The emoji the badge is shown as. */
    function Symbol(): (s: string)
      ensures |s| == 1
    {
      match this
      case Stable => "🎯"
      case EngagementKing => "💬"
      case ViralMaker => "🔥"
      case GrowthRocket => "📈"
      case AllRounder => "⭐"
    }

    /** Where the badge comes in a badge list. */
    function Position(): nat
    {
      match this
      case Stable => 0
      case EngagementKing => 1
      case ViralMaker => 2
      case GrowthRocket => 3
      case AllRounder => 4
    }
  }

  /** Different badges are shown as different emoji. */
  lemma SymbolsDistinct(a: Badge, b: Badge)
    ensures a.Symbol() == b.Symbol() ==> a == b
  {
  }

  /**
   * Status `success` with the metrics of the score calculation, or status
   * `channel_not_found` when no channel id was found for the URL.
   */
  datatype ChannelResult = Scored(metrics: Metrics) | NotFound

  datatype Entry = Entry(name: string, channelUrl: string, result: ChannelResult, badges: seq<Badge>)
  {
    predicate IsSuccess()
    {
      result.Scored?
    }
  }

  /**
   * The entry the run records for one channel of the channel list: not found
   * when the channel id lookup failed, otherwise the score calculation over
   * the videos published in the window. Badges come later.
   */
  function CollectEntry(name: string, channelUrl: string, videosInWindow: Option<seq<Video>>): (e: Entry)
    ensures e.name == name && e.channelUrl == channelUrl && e.badges == []
    ensures videosInWindow.None? <==> !e.IsSuccess()
    ensures e.IsSuccess() ==> e.result.metrics.videos == videosInWindow.value
    ensures ScoredByCalculator(e)
  {
    match videosInWindow
    case None => Entry(name, channelUrl, NotFound, [])
    case Some(videos) => Entry(name, channelUrl, Scored(ChannelScores(videos)), [])
  }

  /** The lookup result of one channel: absent when its id was not found. */
  datatype Option<T> = None | Some(value: T)

  /** An entry whose metrics, if any, are what the score calculation gives for its videos. */
  ghost predicate ScoredByCalculator(e: Entry)
  {
    e.IsSuccess() ==> e.result.metrics == ChannelScores(e.result.metrics.videos)
  }
}
