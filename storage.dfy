/**
 * The in-memory store: three keyed tables and three auto-increment counters.
 * `StoreState` is the abstract value of a store and the `...Step` functions
 * say what each operation does to it; the class `MemStorage` holds the same
 * data in mutable fields and its methods are proved to perform those steps.
 */
module Storage {
  import opened Wrappers
  import opened Schema

  datatype StoreState = StoreState(
    users: map<int, User>,
    aiQueries: map<int, AiQuery>,
    sessionStats: map<string, SessionStats>,
    currentUserId: int,
    currentQueryId: int,
    currentStatsId: int)

  /** The result of an operation together with the store it leaves behind. */
  datatype Step<+T> = Step(state: StoreState, result: T)

  /**
   * The store's invariant: counters start at 1, every stored key was handed
   * out by its counter and is recorded in its row, and no two sessions share
   * a stats id.
   */
  ghost predicate StoreValid(s: StoreState) {
    && s.currentUserId >= 1 && s.currentQueryId >= 1 && s.currentStatsId >= 1
    && (forall id :: id in s.users ==> 1 <= id < s.currentUserId && s.users[id].id == id)
    && (forall id :: id in s.aiQueries ==> 1 <= id < s.currentQueryId && s.aiQueries[id].id == id)
    && (forall k :: k in s.sessionStats ==>
          1 <= s.sessionStats[k].id < s.currentStatsId && s.sessionStats[k].sessionId == k)
    && (forall k, k' :: k in s.sessionStats && k' in s.sessionStats && k != k' ==>
          s.sessionStats[k].id != s.sessionStats[k'].id)
  }

  /** A new store: empty tables, every counter at 1. */
  function InitialState(): (s: StoreState)
    ensures StoreValid(s)
    ensures s.users == map[] && s.aiQueries == map[] && s.sessionStats == map[]
    ensures s.currentUserId == 1 && s.currentQueryId == 1 && s.currentStatsId == 1
  {
    StoreState(map[], map[], map[], 1, 1, 1)
  }

  function LookupUser(s: StoreState, id: int): (r: Option<User>)
    ensures r.Some? <==> id in s.users
    ensures r.Some? ==> r.value == s.users[id]
  {
    if id in s.users then Some(s.users[id]) else None
  }

  function LookupQuery(s: StoreState, id: int): (r: Option<AiQuery>)
    ensures r.Some? <==> id in s.aiQueries
    ensures r.Some? ==> r.value == s.aiQueries[id]
  {
    if id in s.aiQueries then Some(s.aiQueries[id]) else None
  }

  function LookupStats(s: StoreState, sessionId: string): (r: Option<SessionStats>)
    ensures r.Some? <==> sessionId in s.sessionStats
    ensures r.Some? ==> r.value == s.sessionStats[sessionId]
  {
    if sessionId in s.sessionStats then Some(s.sessionStats[sessionId]) else None
  }

  /** `createUser`: the user gets the current user id, which is then incremented. */
  function CreateUserStep(s: StoreState, u: InsertUser): (r: Step<User>)
    requires StoreValid(s)
    ensures StoreValid(r.state)
    ensures r.result.id == s.currentUserId && r.result.id >= 1 && r.result.id !in s.users
    ensures r.result.username == u.username && r.result.password == u.password
    ensures LookupUser(r.state, r.result.id) == Some(r.result)
    ensures forall id :: id != r.result.id ==> LookupUser(r.state, id) == LookupUser(s, id)
    ensures r.state.currentUserId == s.currentUserId + 1
    ensures r.state == s.(users := r.state.users, currentUserId := r.state.currentUserId)
  {
    var id := s.currentUserId;
    var user := User(id, u.username, u.password);
    Step(s.(users := s.users[id := user], currentUserId := id + 1), user)
  }

  /**
   * `createAiQuery`: the query gets the current query id (never used before),
   * keeps the three given columns, starts unrated and is stamped with `now`;
   * the query counter moves on by one and nothing else changes.
   */
  function CreateAiQueryStep(s: StoreState, q: InsertAiQuery, now: Timestamp): (r: Step<AiQuery>)
    requires StoreValid(s)
    ensures StoreValid(r.state)
    ensures r.result.id == s.currentQueryId && r.result.id >= 1 && r.result.id !in s.aiQueries
    ensures InsertedColumns(r.result) == q
    ensures r.result.isHelpful == None && r.result.timestamp == Some(now)
    ensures LookupQuery(r.state, r.result.id) == Some(r.result)
    ensures forall id :: id != r.result.id ==> LookupQuery(r.state, id) == LookupQuery(s, id)
    ensures r.state.currentQueryId == s.currentQueryId + 1
    ensures r.state == s.(aiQueries := r.state.aiQueries, currentQueryId := r.state.currentQueryId)
  {
    var id := s.currentQueryId;
    var query := AiQuery(id, q.taskType, q.userInput, q.response, None, Some(now));
    Step(s.(aiQueries := s.aiQueries[id := query], currentQueryId := id + 1), query)
  }

  /**
   * `updateQueryFeedback`: on an unknown id, reports not-found and changes
   * nothing; on a known id, overwrites that record's `isHelpful` and nothing else.
   */
  function UpdateQueryFeedbackStep(s: StoreState, id: int, isHelpful: bool): (r: Step<Option<AiQuery>>)
    requires StoreValid(s)
    ensures StoreValid(r.state)
    ensures r.result.None? <==> id !in s.aiQueries
    ensures r.result.None? ==> r.state == s
    ensures r.result.Some? ==> r.result.value == s.aiQueries[id].(isHelpful := Some(isHelpful))
    ensures r.result.Some? ==> LookupQuery(r.state, id) == r.result
    ensures forall other :: other != id ==> LookupQuery(r.state, other) == LookupQuery(s, other)
    ensures r.state == s.(aiQueries := r.state.aiQueries)
  {
    if id in s.aiQueries then
      var query := s.aiQueries[id].(isHelpful := Some(isHelpful));
      Step(s.(aiQueries := s.aiQueries[id := query]), Some(query))
    else
      Step(s, None)
  }

  /**
   * `updateSessionStats`, an upsert: the session's counters become exactly the
   * given values. An existing record keeps its id and session id; an absent
   * one is created with the current stats id, which is then incremented.
   */
  function UpdateSessionStatsStep(s: StoreState, sessionId: string, queriesCount: Option<int>,
                                  helpfulCount: Option<int>, now: Timestamp): (r: Step<SessionStats>)
    requires StoreValid(s)
    ensures StoreValid(r.state)
    ensures r.result.sessionId == sessionId
    ensures r.result.queriesCount == queriesCount && r.result.helpfulCount == helpfulCount
    ensures r.result.timestamp == Some(now)
    ensures sessionId in s.sessionStats ==>
      r.result.id == s.sessionStats[sessionId].id && r.state.currentStatsId == s.currentStatsId
    ensures sessionId !in s.sessionStats ==>
      r.result.id == s.currentStatsId && r.state.currentStatsId == s.currentStatsId + 1
    ensures LookupStats(r.state, sessionId) == Some(r.result)
    ensures forall other :: other != sessionId ==> LookupStats(r.state, other) == LookupStats(s, other)
    ensures r.state == s.(sessionStats := r.state.sessionStats, currentStatsId := r.state.currentStatsId)
  {
    if sessionId in s.sessionStats then
      var stats := s.sessionStats[sessionId].(queriesCount := queriesCount, helpfulCount := helpfulCount,
                                              timestamp := Some(now));
      Step(s.(sessionStats := s.sessionStats[sessionId := stats]), stats)
    else
      var id := s.currentStatsId;
      var stats := SessionStats(id, sessionId, queriesCount, helpfulCount, Some(now));
      Step(s.(sessionStats := s.sessionStats[sessionId := stats], currentStatsId := id + 1), stats)
  }

  /** The user that `getUserByUsername` finds: the earliest-created user with that name. */
  ghost predicate IsFirstUserNamed(s: StoreState, username: string, r: Option<User>) {
    && (r.Some? ==> r.value.id in s.users && s.users[r.value.id] == r.value && r.value.username == username
                    && forall id :: id in s.users && id < r.value.id ==> s.users[id].username != username)
    && (r.None? ==> forall id :: id in s.users ==> s.users[id].username != username)
  }

  /** Two queries created one after the other get strictly increasing ids, and the first stays stored. */
  lemma CreateAiQueryIdsIncrease(s: StoreState, q1: InsertAiQuery, q2: InsertAiQuery, t1: Timestamp, t2: Timestamp)
    requires StoreValid(s)
    ensures var a := CreateAiQueryStep(s, q1, t1);
            var b := CreateAiQueryStep(a.state, q2, t2);
            a.result.id < b.result.id && LookupQuery(b.state, a.result.id) == Some(a.result)
  {
  }

  /** Feedback after a creation rates the created record and keeps its other columns. */
  lemma CreateThenFeedback(s: StoreState, q: InsertAiQuery, now: Timestamp, isHelpful: bool)
    requires StoreValid(s)
    ensures var a := CreateAiQueryStep(s, q, now);
            var b := UpdateQueryFeedbackStep(a.state, a.result.id, isHelpful);
            b.result == Some(a.result.(isHelpful := Some(isHelpful)))
            && InsertedColumns(b.result.value) == q
  {
  }

  /** Repeated feedback on one id overwrites: the last value wins. */
  lemma FeedbackLastWins(s: StoreState, id: int, first: bool, second: bool)
    requires StoreValid(s)
    ensures var a := UpdateQueryFeedbackStep(s, id, first);
            UpdateQueryFeedbackStep(a.state, id, second) == UpdateQueryFeedbackStep(s, id, second)
  {
    var a := UpdateQueryFeedbackStep(s, id, first);
    if id in s.aiQueries {
      assert a.state.aiQueries[id := s.aiQueries[id].(isHelpful := Some(second))]
          == s.aiQueries[id := s.aiQueries[id].(isHelpful := Some(second))];
    }
  }

  /**
   * Upserting twice with the same arguments gives the same id and counters as
   * upserting once, and the second call creates no new stats id; the stores
   * differ at most in the timestamp.
   */
  lemma UpsertIdempotent(s: StoreState, sessionId: string, q: Option<int>, h: Option<int>, t1: Timestamp, t2: Timestamp)
    requires StoreValid(s)
    ensures var a := UpdateSessionStatsStep(s, sessionId, q, h, t1);
            var b := UpdateSessionStatsStep(a.state, sessionId, q, h, t2);
            && b.result == a.result.(timestamp := Some(t2))
            && b.state.currentStatsId == a.state.currentStatsId
            && (t1 == t2 ==> b.state == a.state)
  {
    var a := UpdateSessionStatsStep(s, sessionId, q, h, t1);
    var b := UpdateSessionStatsStep(a.state, sessionId, q, h, t2);
    if t1 == t2 {
      assert b.state.sessionStats == a.state.sessionStats;
    }
  }

  /** The upsert replaces the counters rather than adding to them. */
  lemma UpsertReplacesCounters(s: StoreState, sessionId: string, q1: int, h1: int, q2: int, h2: int, t1: Timestamp, t2: Timestamp)
    requires StoreValid(s)
    ensures var a := UpdateSessionStatsStep(s, sessionId, Some(q1), Some(h1), t1);
            var b := UpdateSessionStatsStep(a.state, sessionId, Some(q2), Some(h2), t2);
            var stored := LookupStats(b.state, sessionId);
            stored.Some? && stored.value.queriesCount == Some(q2) && stored.value.helpfulCount == Some(h2)
            && stored.value.id == a.result.id
  {
  }

  /** An in-memory store; its methods perform the corresponding steps on `State()`. */
  class MemStorage {
    var users: map<int, User>
    var aiQueries: map<int, AiQuery>
    var sessionStats: map<string, SessionStats>
    var currentUserId: int
    var currentQueryId: int
    var currentStatsId: int

    /** The abstract value of this store. */
    function State(): StoreState
      reads this
    {
      StoreState(users, aiQueries, sessionStats, currentUserId, currentQueryId, currentStatsId)
    }

    ghost predicate Valid()
      reads this
    {
      StoreValid(State())
    }

    constructor ()
      ensures Valid()
      ensures State() == InitialState()
    {
      users := map[];
      aiQueries := map[];
      sessionStats := map[];
      currentUserId := 1;
      currentQueryId := 1;
      currentStatsId := 1;
    }

    method GetUser(id: int) returns (r: Option<User>)
      ensures r == LookupUser(State(), id)
    {
      r := if id in users then Some(users[id]) else None;
    }

    /**
     * Scans users in insertion order, which for this store is ascending id
     * order, and returns the first with the given name.
     */
    method GetUserByUsername(username: string) returns (r: Option<User>)
      requires Valid()
      ensures IsFirstUserNamed(State(), username, r)
    {
      var id := 1;
      while id < currentUserId
        invariant 1 <= id <= currentUserId
        invariant forall k :: k in users && k < id ==> users[k].username != username
      {
        if id in users && users[id].username == username {
          return Some(users[id]);
        }
        id := id + 1;
      }
      return None;
    }

    method CreateUser(insertUser: InsertUser) returns (user: User)
      requires Valid()
      modifies this
      ensures Valid()
      ensures CreateUserStep(old(State()), insertUser) == Step(State(), user)
    {
      var id := currentUserId;
      currentUserId := currentUserId + 1;
      user := User(id, insertUser.username, insertUser.password);
      users := users[id := user];
    }

    method CreateAiQuery(insertQuery: InsertAiQuery, now: Timestamp) returns (query: AiQuery)
      requires Valid()
      modifies this
      ensures Valid()
      ensures CreateAiQueryStep(old(State()), insertQuery, now) == Step(State(), query)
      ensures query.id == old(currentQueryId) && GetAiQuery(query.id) == Some(query)
    {
      var id := currentQueryId;
      currentQueryId := currentQueryId + 1;
      query := AiQuery(id, insertQuery.taskType, insertQuery.userInput, insertQuery.response, None, Some(now));
      aiQueries := aiQueries[id := query];
    }

    method UpdateQueryFeedback(id: int, isHelpful: bool) returns (r: Option<AiQuery>)
      requires Valid()
      modifies this
      ensures Valid()
      ensures UpdateQueryFeedbackStep(old(State()), id, isHelpful) == Step(State(), r)
    {
      if id in aiQueries {
        var query := aiQueries[id].(isHelpful := Some(isHelpful));
        aiQueries := aiQueries[id := query];
        r := Some(query);
      } else {
        r := None;
      }
    }

    function GetAiQuery(id: int): (r: Option<AiQuery>)
      reads this
      ensures r == LookupQuery(State(), id)
    {
      if id in aiQueries then Some(aiQueries[id]) else None
    }

    function GetSessionStats(sessionId: string): (r: Option<SessionStats>)
      reads this
      ensures r == LookupStats(State(), sessionId)
    {
      if sessionId in sessionStats then Some(sessionStats[sessionId]) else None
    }

    method UpdateSessionStats(sessionId: string, queriesCount: Option<int>, helpfulCount: Option<int>, now: Timestamp)
      returns (stats: SessionStats)
      requires Valid()
      modifies this
      ensures Valid()
      ensures UpdateSessionStatsStep(old(State()), sessionId, queriesCount, helpfulCount, now) == Step(State(), stats)
      ensures GetSessionStats(sessionId) == Some(stats)
    {
      if sessionId in sessionStats {
        stats := sessionStats[sessionId].(queriesCount := queriesCount, helpfulCount := helpfulCount,
                                          timestamp := Some(now));
        sessionStats := sessionStats[sessionId := stats];
      } else {
        var id := currentStatsId;
        currentStatsId := currentStatsId + 1;
        stats := SessionStats(id, sessionId, queriesCount, helpfulCount, Some(now));
        sessionStats := sessionStats[sessionId := stats];
      }
    }
  }
}
