/** `LeetCodeViewModel`: the published dashboard state and the pipeline that fills it. */
module ViewModel {
  import opened Wrappers
  import opened Text
  import opened Models
  import opened GraphQLClient
  import opened Queries
  import opened Credentials
  import opened Reminders

  const LoadingMarker := "(loading\U{2026})"
  const ErrorMarker := "(error - check console)"

  // ---------------------------------------------------------------------------
  // Folding `acSubmissionNum` into per-difficulty counts

  function DifficultyKey(a: AC): string {
    Lowercased(a.difficulty)
  }

  /** The dictionary `reduce(into:)` builds: entries taken in order, each storing its
      count under its lowercased difficulty. */
  function CountsOf(acs: seq<AC>): map<string, int> {
    if acs == [] then map[]
    else CountsOf(acs[..|acs| - 1])[DifficultyKey(acs[|acs| - 1]) := acs[|acs| - 1].count]
  }

  /** A key is present exactly when some entry has it, and its count is that of the last
      such entry. */
  lemma CountsOfLastWins(acs: seq<AC>, k: string)
    ensures k in CountsOf(acs) <==> exists i :: 0 <= i < |acs| && DifficultyKey(acs[i]) == k
    ensures k in CountsOf(acs) ==>
      exists i :: 0 <= i < |acs| && DifficultyKey(acs[i]) == k && CountsOf(acs)[k] == acs[i].count
                  && forall j :: i < j < |acs| ==> DifficultyKey(acs[j]) != k
  {
    CountsOfKeys(acs, k);
    if k in CountsOf(acs) {
      CountsOfLastEntry(acs, k);
    }
  }

  lemma {:induction false} CountsOfKeys(acs: seq<AC>, k: string)
    ensures k in CountsOf(acs) <==> exists i :: 0 <= i < |acs| && DifficultyKey(acs[i]) == k
  {
    if acs != [] {
      var n := |acs| - 1;
      CountsOfKeys(acs[..n], k);
      assert forall i :: 0 <= i < n ==> acs[..n][i] == acs[i];
    }
  }

  lemma {:induction false} CountsOfLastEntry(acs: seq<AC>, k: string)
    requires k in CountsOf(acs)
    ensures exists i :: 0 <= i < |acs| && DifficultyKey(acs[i]) == k && CountsOf(acs)[k] == acs[i].count
                        && forall j :: i < j < |acs| ==> DifficultyKey(acs[j]) != k
  {
    var n := |acs| - 1;
    if DifficultyKey(acs[n]) != k {
      var init := acs[..n];
      CountsOfLastEntry(init, k);
      var i :| 0 <= i < n && DifficultyKey(init[i]) == k && CountsOf(init)[k] == init[i].count
               && forall j :: i < j < n ==> DifficultyKey(init[j]) != k;
      assert init[i] == acs[i];
      assert forall j :: i < j < n ==> init[j] == acs[j];
    }
  }

  /** The count stored under `key`, or 0 when absent (`stats[key] ?? 0`). */
  function CountOr(counts: map<string, int>, key: string): int {
    if key in counts then counts[key] else 0
  }

  /** The defaulted count for a key is 0 when no entry has that key, and otherwise the
      count of the last entry that has it. */
  lemma SolvedCountIsLastEntry(acs: seq<AC>, key: string)
    ensures (forall i :: 0 <= i < |acs| ==> DifficultyKey(acs[i]) != key) ==> CountOr(CountsOf(acs), key) == 0
    ensures forall i :: 0 <= i < |acs| && DifficultyKey(acs[i]) == key
                        && (forall j :: i < j < |acs| ==> DifficultyKey(acs[j]) != key)
                        ==> CountOr(CountsOf(acs), key) == acs[i].count
  {
    CountsOfLastWins(acs, key);
  }

  /** The loop behind `reduce(into:)`. */
  method CountsByDifficulty(acs: seq<AC>) returns (counts: map<string, int>)
    ensures counts == CountsOf(acs)
  {
    counts := map[];
    var i := 0;
    while i < |acs|
      invariant 0 <= i <= |acs|
      invariant counts == CountsOf(acs[..i])
    {
      assert acs[..i + 1][..i] == acs[..i];
      counts := counts[DifficultyKey(acs[i]) := acs[i].count];
      i := i + 1;
    }
    assert acs[..|acs|] == acs;
  }

  /** The published statistics fields. */
  datatype Tally = Tally(ranking: Option<int>, totalSolved: int, easySolved: int, midSolved: int, hardSolved: int)

  /** What `apply(stats:)` makes of the statistics: nothing changes without a matched
      user; otherwise the ranking is copied (absent or not) and each count is read from
      the folded dictionary with 0 as default. */
  function Applied(before: Tally, env: StatsEnvelope): Tally {
    match env.matchedUser
    case None => before
    case Some(user) =>
      var counts := CountsOf(user.submitStatsGlobal.acSubmissionNum);
      Tally(user.profile.ranking, CountOr(counts, "all"), CountOr(counts, "easy"),
            CountOr(counts, "medium"), CountOr(counts, "hard"))
  }

  predicate KnownDifficulty(key: string) {
    key == "all" || key == "easy" || key == "medium" || key == "hard"
  }

  /** An entry whose lowercased difficulty is none of the four known ones has no effect. */
  lemma UnknownDifficultyIgnored(before: Tally, user: MatchedUser, extra: AC)
    requires !KnownDifficulty(DifficultyKey(extra))
    ensures var acs := user.submitStatsGlobal.acSubmissionNum;
      Applied(before, StatsEnvelope(Some(MatchedUser(SubmitStatsGlobal(acs + [extra]), user.profile))))
      == Applied(before, StatsEnvelope(Some(user)))
  {
    var acs := user.submitStatsGlobal.acSubmissionNum;
    assert (acs + [extra])[..|acs|] == acs;
  }

  /** The usual response, with capitalised difficulties, fills all four counts. */
  lemma TypicalResponse(before: Tally, rank: Option<int>)
    ensures Applied(before, StatsEnvelope(Some(MatchedUser(
      SubmitStatsGlobal([AC("All", 10), AC("Easy", 4), AC("Medium", 4), AC("Hard", 2)]),
      Profile(rank))))) == Tally(rank, 10, 4, 4, 2)
  {
    var acs := [AC("All", 10), AC("Easy", 4), AC("Medium", 4), AC("Hard", 2)];
    assert Lowercased("All") == "all";
    assert Lowercased("Easy") == "easy";
    assert Lowercased("Medium") == "medium";
    assert Lowercased("Hard") == "hard";
    assert acs[..1][..0] == [] && acs[..2][..1] == acs[..1] && acs[..3][..2] == acs[..2] && acs[..3] == acs[..|acs| - 1];
    assert CountsOf(acs[..1]) == map["all" := 10];
    assert CountsOf(acs[..2]) == map["all" := 10, "easy" := 4];
    assert CountsOf(acs[..3]) == map["all" := 10, "easy" := 4, "medium" := 4];
    assert CountsOf(acs) == map["all" := 10, "easy" := 4, "medium" := 4, "hard" := 2];
  }

  // ---------------------------------------------------------------------------
  // The load pipeline

  /** The server's answer to each of the four queries. */
  datatype Server = Server(
    user: Request -> Exchange<UserEnvelope>,
    stats: Request -> Exchange<StatsEnvelope>,
    contests: Request -> Exchange<ContestListEnvelope>,
    daily: Request -> Exchange<DailyEnvelope>)

  /** Everything the four fetches produce when they all succeed. */
  datatype Fetched = Fetched(username: string, stats: StatsEnvelope, contest: Contest, daily: DailyProblem)

  /** The four fetches in order, the stats query naming the fetched username; the first
      failure is the outcome. */
  function Pipeline(cookie: string, server: Server, now: int): Result<Fetched, FetchError> {
    match FetchUsername(cookie, server.user)
    case Err(e) => Err(e)
    case Ok(name) =>
      match FetchStats(cookie, name, server.stats)
      case Err(e) => Err(e)
      case Ok(stats) =>
        match FetchNextContest(cookie, server.contests, now)
        case Err(e) => Err(e)
        case Ok(contest) =>
          match FetchDaily(cookie, server.daily)
          case Err(e) => Err(e)
          case Ok(daily) => Ok(Fetched(name, stats, contest, daily))
  }

  /** The requests sent, in order, up to and including the first that fails. */
  function RequestsIssued(cookie: string, server: Server, now: int): seq<Request> {
    [BuildRequest(UserQuery, cookie)] +
    match FetchUsername(cookie, server.user)
    case Err(_) => []
    case Ok(name) =>
      [BuildRequest(StatsQuery(name), cookie)] +
      if FetchStats(cookie, name, server.stats).Err? then []
      else
        [BuildRequest(ContestQuery, cookie)] +
        if FetchNextContest(cookie, server.contests, now).Err? then []
        else [BuildRequest(DailyQuery, cookie)]
  }

  /** The load succeeds exactly when every one of the four responses passes `query`'s
      checks, the stats response being the one to the request naming the fetched user. */
  lemma PipelineSucceedsIff(cookie: string, server: Server, now: int)
    ensures Pipeline(cookie, server, now).Ok? <==>
      && Classify(server.user(BuildRequest(UserQuery, cookie))).Ok?
      && Classify(server.stats(BuildRequest(StatsQuery(FetchUsername(cookie, server.user).value), cookie))).Ok?
      && Classify(server.contests(BuildRequest(ContestQuery, cookie))).Ok?
      && Classify(server.daily(BuildRequest(DailyQuery, cookie))).Ok?
  {
  }

  /** The requests go out one by one and stop at the first failure; each presents the
      session token, and the second asks about exactly the username the first returned. */
  lemma RequestsIssuedInOrder(cookie: string, server: Server, now: int)
    ensures var sent := RequestsIssued(cookie, server, now);
      && 1 <= |sent| <= 4
      && (Pipeline(cookie, server, now).Ok? ==> |sent| == 4)
      && (|sent| < 4 ==> Pipeline(cookie, server, now).Err?)
      && (forall i :: 0 <= i < |sent| ==> SessionOf(sent[i]) == Some(cookie))
      && (|sent| >= 2 ==> FetchUsername(cookie, server.user).Ok?
                          && ArgumentSeen(sent[1].body) == Some((FetchUsername(cookie, server.user).value, MatchedUserRest)))
  {
    var name := FetchUsername(cookie, server.user);
    if name.Err? {
      UserStepFails(cookie, server, now);
    } else if FetchStats(cookie, name.value, server.stats).Err? {
      StatsStepFails(cookie, server, now, name.value);
    } else if FetchNextContest(cookie, server.contests, now).Err? {
      ContestStepFails(cookie, server, now, name.value);
    } else {
      AllRequestsSent(cookie, server, now, name.value);
    }
  }

  /** An HTML page in answer to the stats query fails the load as an authentication
      error after exactly two requests, the username having been fetched. */
  lemma ExpiredSessionAtStats(c: string, server: Server, now: int)
    requires FetchUsername(c, server.user).Ok?
    requires var x := server.stats(BuildRequest(StatsQuery(FetchUsername(c, server.user).value), c));
      x.Received? && StatusAccepted(x) && x.text.Some? && OpensWithTag(x.text.value)
    ensures Pipeline(c, server, now) == Err(AuthenticationError)
    ensures |RequestsIssued(c, server, now)| == 2
  {
  }

  /** With no upcoming contest the sentinel is published and handed to the reminder,
      whose fire time is then 15 minutes before `now`, already past. */
  lemma EmptyContestListSchedulesPastReminder(c: string, server: Server, now: int)
    requires Pipeline(c, server, now).Ok?
    requires server.contests(BuildRequest(ContestQuery, c)).decoded.value.data.upcomingContests == []
    ensures Pipeline(c, server, now).value.contest == NoContest(now)
    ensures ReminderFor(Pipeline(c, server, now).value.contest).fireAt < now
  {
  }

  // `Pipeline` and `RequestsIssued` unfolded one fetch at a time.

  /** The username fetch fails: one request, and the load fails. */
  lemma UserStepFails(c: string, server: Server, now: int)
    requires FetchUsername(c, server.user).Err?
    ensures Pipeline(c, server, now).Err?
    ensures RequestsIssued(c, server, now) == [BuildRequest(UserQuery, c)]
  {
  }

  /** The stats fetch fails: two requests, and the load fails. */
  lemma StatsStepFails(c: string, server: Server, now: int, name: string)
    requires FetchUsername(c, server.user) == Ok(name)
    requires FetchStats(c, name, server.stats).Err?
    ensures Pipeline(c, server, now).Err?
    ensures RequestsIssued(c, server, now) == [BuildRequest(UserQuery, c), BuildRequest(StatsQuery(name), c)]
  {
  }

  /** The contest fetch fails: three requests, and the load fails. */
  lemma ContestStepFails(c: string, server: Server, now: int, name: string)
    requires FetchUsername(c, server.user) == Ok(name)
    requires FetchStats(c, name, server.stats).Ok?
    requires FetchNextContest(c, server.contests, now).Err?
    ensures Pipeline(c, server, now).Err?
    ensures RequestsIssued(c, server, now) ==
      [BuildRequest(UserQuery, c), BuildRequest(StatsQuery(name), c), BuildRequest(ContestQuery, c)]
  {
  }

  /** The first three fetches succeed: four requests, and the outcome is the daily fetch's. */
  lemma AllRequestsSent(c: string, server: Server, now: int, name: string)
    requires FetchUsername(c, server.user) == Ok(name)
    requires FetchStats(c, name, server.stats).Ok?
    requires FetchNextContest(c, server.contests, now).Ok?
    ensures RequestsIssued(c, server, now) ==
      [BuildRequest(UserQuery, c), BuildRequest(StatsQuery(name), c),
       BuildRequest(ContestQuery, c), BuildRequest(DailyQuery, c)]
    ensures FetchDaily(c, server.daily).Err? ==> Pipeline(c, server, now).Err?
    ensures FetchDaily(c, server.daily).Ok? ==>
      Pipeline(c, server, now) == Ok(Fetched(name, FetchStats(c, name, server.stats).value,
                                             FetchNextContest(c, server.contests, now).value,
                                             FetchDaily(c, server.daily).value))
  {
  }

  // ---------------------------------------------------------------------------
  // The view model

  class LeetCodeViewModel {
    var username: string
    var ranking: Option<int>
    var totalSolved: int
    var easySolved: int
    var midSolved: int
    var hardSolved: int
    var nextContest: Option<Contest>
    var today: Option<DailyProblem>
    /** Every request sent to the GraphQL endpoint, in order. */
    ghost var sent: seq<Request>

    constructor ()
      ensures username == LoadingMarker && nextContest.None? && today.None? && sent == []
      ensures Stats() == Tally(None, 0, 0, 0, 0)
    {
      username := LoadingMarker;
      ranking := None;
      totalSolved, easySolved, midSolved, hardSolved := 0, 0, 0, 0;
      nextContest := None;
      today := None;
      sent := [];
    }

    function Stats(): Tally
      reads this
    {
      Tally(ranking, totalSolved, easySolved, midSolved, hardSolved)
    }

    /** `load`: find a session token, then run the four fetches. The username is
        published as soon as it is fetched; statistics, contest and daily problem only
        once all four fetches have succeeded, followed by the reminder. Any failure puts
        the error marker in place of the username and leaves the rest as it was. */
    method Load(keychain: Keychain, jar: seq<Cookie>, reply: Option<PromptReply>,
                server: Server, center: NotificationCenter, now: int)
      modifies this, keychain, center
      ensures center.authorizationGranted == old(center.authorizationGranted)
      ensures var token := SessionChoice(old(keychain.stored), jar, reply);
        keychain.saves == old(keychain.saves) + (if old(keychain.stored).None? && token.Some? then [token.value] else [])
      ensures SessionChoice(old(keychain.stored), jar, reply).None? ==>
        && username == old(username) && Stats() == old(Stats())
        && nextContest == old(nextContest) && today == old(today)
        && sent == old(sent) && center.pending == old(center.pending)
      ensures var token := SessionChoice(old(keychain.stored), jar, reply);
        token.Some? ==> sent == old(sent) + RequestsIssued(token.value, server, now)
      ensures keychain.stored ==
        if old(keychain.stored).None? then SessionChoice(old(keychain.stored), jar, reply) else old(keychain.stored)
      ensures var token := SessionChoice(old(keychain.stored), jar, reply);
        token.Some? && Pipeline(token.value, server, now).Ok? ==>
          var f := Pipeline(token.value, server, now).value;
          && username == f.username
          && Stats() == Applied(old(Stats()), f.stats)
          && nextContest == Some(f.contest) && today == Some(f.daily)
          && center.pending == Scheduled(old(center.pending), Some(f.contest), old(center.authorizationGranted))
      ensures var token := SessionChoice(old(keychain.stored), jar, reply);
        token.Some? && Pipeline(token.value, server, now).Err? ==>
          && username == ErrorMarker && Stats() == old(Stats())
          && nextContest == old(nextContest) && today == old(today)
          && center.pending == old(center.pending)
    {
      var cookie := ObtainCookie(keychain, jar, reply);
      if cookie.None? {
        return;
      }
      Refresh(cookie.value, server, center, now);
    }

    /** The body of `load` once a token is in hand: the four fetches, the publishing of
        their results and the reminder; any failure puts the error marker in place of
        the username. */
    method Refresh(c: string, server: Server, center: NotificationCenter, now: int)
      modifies this, center
      ensures center.authorizationGranted == old(center.authorizationGranted)
      ensures sent == old(sent) + RequestsIssued(c, server, now)
      ensures Pipeline(c, server, now).Ok? ==>
        var f := Pipeline(c, server, now).value;
        && username == f.username
        && Stats() == Applied(old(Stats()), f.stats)
        && nextContest == Some(f.contest) && today == Some(f.daily)
        && center.pending == Scheduled(old(center.pending), Some(f.contest), old(center.authorizationGranted))
      ensures Pipeline(c, server, now).Err? ==>
        && username == ErrorMarker && Stats() == old(Stats())
        && nextContest == old(nextContest) && today == old(today)
        && center.pending == old(center.pending)
    {
      ghost var before := sent;

      sent := before + [BuildRequest(UserQuery, c)];
      var name := FetchUsername(c, server.user);
      if name.Err? {
        UserStepFails(c, server, now);
        username := ErrorMarker;
        return;
      }
      username := name.value;

      sent := before + [BuildRequest(UserQuery, c), BuildRequest(StatsQuery(username), c)];
      var stats := FetchStats(c, username, server.stats);
      if stats.Err? {
        StatsStepFails(c, server, now, username);
        username := ErrorMarker;
        return;
      }

      sent := before + [BuildRequest(UserQuery, c), BuildRequest(StatsQuery(username), c), BuildRequest(ContestQuery, c)];
      var contest := FetchNextContest(c, server.contests, now);
      if contest.Err? {
        ContestStepFails(c, server, now, username);
        username := ErrorMarker;
        return;
      }

      AllRequestsSent(c, server, now, username);
      sent := before + [BuildRequest(UserQuery, c), BuildRequest(StatsQuery(username), c),
                        BuildRequest(ContestQuery, c), BuildRequest(DailyQuery, c)];
      var daily := FetchDaily(c, server.daily);
      if daily.Err? {
        username := ErrorMarker;
        return;
      }

      Publish(stats.value, contest.value, daily.value, center);
    }

    /** The end of the `do` block: the fetched values are shown and the reminder set. */
    method Publish(stats: StatsEnvelope, contest: Contest, daily: DailyProblem, center: NotificationCenter)
      modifies this, center
      ensures Stats() == Applied(old(Stats()), stats)
      ensures nextContest == Some(contest) && today == Some(daily)
      ensures username == old(username) && sent == old(sent)
      ensures center.pending == Scheduled(old(center.pending), Some(contest), old(center.authorizationGranted))
      ensures center.authorizationGranted == old(center.authorizationGranted)
    {
      Apply(stats);
      nextContest := Some(contest);
      today := Some(daily);
      ScheduleNotification(center, Some(contest));
    }

    /** `obtainCookie`: the Keychain's token if there is one, untouched; else the
        browser's session cookie, saved once; else whatever the prompt accepted (the
        prompt saves it). */
    method ObtainCookie(keychain: Keychain, jar: seq<Cookie>, reply: Option<PromptReply>) returns (cookie: Option<string>)
      modifies keychain
      ensures cookie == SessionChoice(old(keychain.stored), jar, reply)
      ensures old(keychain.stored).Some? ==> cookie == old(keychain.stored) && keychain.saves == old(keychain.saves)
      ensures keychain.saves == old(keychain.saves) + (if old(keychain.stored).None? && cookie.Some? then [cookie.value] else [])
      ensures keychain.stored == if old(keychain.stored).None? then cookie else old(keychain.stored)
    {
      var stored := keychain.Read();
      if stored.Some? {
        return stored;
      }
      var fromBrowser := BrowserCookie(jar);
      if fromBrowser.Some? {
        keychain.Save(fromBrowser.value);
        return fromBrowser;
      }
      if reply.None? {
        return None;
      }
      cookie := PromptForCookie(keychain, reply.value);
    }

    /** `promptForCookie`: the accepted token is saved before it is handed back. */
    method PromptForCookie(keychain: Keychain, reply: PromptReply) returns (token: Option<string>)
      modifies keychain
      ensures token == AcceptedToken(reply)
      ensures token.Some? ==> keychain.stored == token && keychain.saves == old(keychain.saves) + [token.value]
      ensures token.None? ==> keychain.stored == old(keychain.stored) && keychain.saves == old(keychain.saves)
    {
      token := AcceptedToken(reply);
      if token.Some? {
        keychain.Save(token.value);
      }
    }

    /** `apply(stats:)`. */
    method Apply(env: StatsEnvelope)
      modifies this
      ensures Stats() == Applied(old(Stats()), env)
      ensures username == old(username) && nextContest == old(nextContest) && today == old(today) && sent == old(sent)
    {
      if env.matchedUser.None? {
        return;
      }
      var user := env.matchedUser.value;
      var stats := CountsByDifficulty(user.submitStatsGlobal.acSubmissionNum);
      ranking := user.profile.ranking;
      easySolved := if "easy" in stats then stats["easy"] else 0;
      midSolved := if "medium" in stats then stats["medium"] else 0;
      hardSolved := if "hard" in stats then stats["hard"] else 0;
      totalSolved := if "all" in stats then stats["all"] else 0;
    }

    /** `scheduleNotification(for:)`: without a contest or without permission nothing
        happens; otherwise pending reminders are removed and the new one added. */
    method ScheduleNotification(center: NotificationCenter, contest: Option<Contest>)
      modifies center
      ensures center.pending == Scheduled(old(center.pending), contest, old(center.authorizationGranted))
      ensures center.authorizationGranted == old(center.authorizationGranted)
    {
      if contest.None? {
        return;
      }
      var granted := center.RequestAuthorization();
      if !granted {
        return;
      }
      center.RemovePending(ReminderId);
      center.Add(ReminderFor(contest.value));
    }
  }
}
