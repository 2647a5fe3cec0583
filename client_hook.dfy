/**
 * The client hook's state and rules: the id of the response being rated,
 * the cached stats of the session, the guard on sending feedback, and the
 * counter update sent to the server after feedback succeeds.
 */
module ClientHook {
  import opened Wrappers
  import opened Schema
  import opened Routes

  /** Session stats as the client sees them. */
  datatype ClientStats = ClientStats(queriesCount: int, helpfulCount: int, successRate: int)

  /** The counters the client posts to the server's stats endpoint. */
  datatype StatsUpdate = StatsUpdate(queriesCount: int, helpfulCount: int)

  /** The reply of a successful chat request. */
  datatype AIResponse = AIResponse(id: int, response: string, taskType: string)

  const ZeroStats: ClientStats := ClientStats(0, 0, 0)

  /** After one successful feedback: one more query, and one more helpful one iff it was helpful. */
  function FeedbackCounts(stats: ClientStats, isHelpful: bool): (u: StatsUpdate)
    ensures u.queriesCount == stats.queriesCount + 1
    ensures isHelpful ==> u.helpfulCount == stats.helpfulCount + 1
    ensures !isHelpful ==> u.helpfulCount == stats.helpfulCount
  {
    StatsUpdate(stats.queriesCount + 1, if isHelpful then stats.helpfulCount + 1 else stats.helpfulCount)
  }

  /** The update keeps `0 <= helpful <= queries`. */
  lemma FeedbackCountsKeepBound(stats: ClientStats, isHelpful: bool)
    requires 0 <= stats.helpfulCount <= stats.queriesCount
    ensures var u := FeedbackCounts(stats, isHelpful);
            0 <= u.helpfulCount <= u.queriesCount
  {
  }

  /** The client stats after a series of feedbacks, each counted as the server reports it back. */
  function AfterFeedbacks(stats: ClientStats, feedbacks: seq<bool>): (r: ClientStats)
    ensures r.queriesCount == stats.queriesCount + |feedbacks|
    ensures r.helpfulCount == stats.helpfulCount + HelpfulIn(feedbacks)
    decreases |feedbacks|
  {
    if feedbacks == [] then stats
    else
      var u := FeedbackCounts(stats, feedbacks[0]);
      AfterFeedbacks(ClientStats(u.queriesCount, u.helpfulCount, SuccessRate(u.queriesCount, u.helpfulCount)),
                     feedbacks[1..])
  }

  /** Number of helpful ratings in a series of feedbacks. */
  function HelpfulIn(feedbacks: seq<bool>): (n: nat)
    ensures n <= |feedbacks|
  {
    if feedbacks == [] then 0 else (if feedbacks[0] then 1 else 0) + HelpfulIn(feedbacks[1..])
  }

  /**
   * Starting from the zero stats, a series of feedbacks counts every
   * feedback as a query and every helpful one as helpful, so
   * `helpful <= queries` holds throughout and the rate stays in 0..100.
   */
  lemma {:induction false} AfterFeedbacksCounts(stats: ClientStats, feedbacks: seq<bool>)
    requires 0 <= stats.helpfulCount <= stats.queriesCount
    ensures var r := AfterFeedbacks(stats, feedbacks);
            && r.queriesCount == stats.queriesCount + |feedbacks|
            && r.helpfulCount == stats.helpfulCount + HelpfulIn(feedbacks)
            && 0 <= r.helpfulCount <= r.queriesCount
            && (feedbacks != [] ==> 0 <= r.successRate <= 100)
    decreases |feedbacks|
  {
    if feedbacks != [] {
      var u := FeedbackCounts(stats, feedbacks[0]);
      var next := ClientStats(u.queriesCount, u.helpfulCount, SuccessRate(u.queriesCount, u.helpfulCount));
      FeedbackCountsKeepBound(stats, feedbacks[0]);
      SuccessRateInRange(u.queriesCount, u.helpfulCount);
      AfterFeedbacksCounts(next, feedbacks[1..]);
    }
  }

  /** A posted update built from bounded cached stats gets a success rate in 0..100 back. */
  lemma PostedUpdateRateInRange(stats: ClientStats, isHelpful: bool)
    requires 0 <= stats.helpfulCount <= stats.queriesCount
    ensures var u := FeedbackCounts(stats, isHelpful);
            var b := StatsReplyFor(Some(u.queriesCount), Some(u.helpfulCount));
            b.queriesCount == u.queriesCount && b.helpfulCount == u.helpfulCount && 0 <= b.successRate <= 100
  {
    var u := FeedbackCounts(stats, isHelpful);
    SuccessRateInRange(u.queriesCount, u.helpfulCount);
  }

  /** The hook's mutable state for one session. */
  class AssistantHook {
    /** The random per-page session id is supplied by the caller. */
    const sessionId: string
    var currentResponseId: Option<int>
    /** The query cache's entry for this session's stats, if loaded. */
    var cachedStats: Option<ClientStats>

    constructor (sessionId: string)
      ensures this.sessionId == sessionId
      ensures currentResponseId == None && cachedStats == None
    {
      this.sessionId := sessionId;
      currentResponseId := None;
      cachedStats := None;
    }

    /** The stats the hook exposes: the cached ones, or all zeros when none are loaded. */
    function ExposedStats(): (st: ClientStats)
      reads this
      ensures cachedStats.None? ==> st == ZeroStats
      ensures cachedStats.Some? ==> st == cachedStats.value
    {
      cachedStats.GetOr(ZeroStats)
    }

    /** The stats query delivers a reply into the cache. */
    method StatsLoaded(stats: ClientStats)
      modifies this
      ensures cachedStats == Some(stats) && currentResponseId == old(currentResponseId)
    {
      cachedStats := Some(stats);
    }

    /** A chat succeeded: its id becomes the one feedback refers to. */
    method OnChatSuccess(data: AIResponse)
      modifies this
      ensures currentResponseId == Some(data.id) && cachedStats == old(cachedStats)
    {
      currentResponseId := Some(data.id);
    }

    /** `submitFeedback`: sends nothing while no response id is set, otherwise the id with the rating. */
    method SubmitFeedback(isHelpful: bool) returns (sent: Option<FeedbackRequest>)
      ensures sent.None? <==> currentResponseId.None?
      ensures sent.Some? ==> sent.value == FeedbackRequest(currentResponseId.value, isHelpful)
    {
      if currentResponseId.Some? {
        sent := Some(FeedbackRequest(currentResponseId.value, isHelpful));
      } else {
        sent := None;
      }
    }

    /** Feedback succeeded: the counter update to post, or nothing when no stats are cached. */
    method OnFeedbackSuccess(isHelpful: bool) returns (post: Option<StatsUpdate>)
      ensures post.None? <==> cachedStats.None?
      ensures post.Some? ==> post.value == FeedbackCounts(cachedStats.value, isHelpful)
    {
      match cachedStats
      case None =>
        post := None;
      case Some(currentStats) =>
        post := Some(FeedbackCounts(currentStats, isHelpful));
    }
  }
}
