/** The four queries the dashboard sends and how each response payload becomes a value:
    the username, the stats envelope, the next contest and the daily problem. */
module Queries {
  import opened Wrappers
  import opened Text
  import opened Models
  import opened GraphQLClient
  import opened QueryEscaping

  const UserQuery := "{\"query\":\"{ userStatus { username } }\"}"
  const ContestQuery := "{\"query\":\"{ upcomingContests { title startTime } }\"}"
  const DailyQuery := "{\"query\":\"{ activeDailyCodingChallengeQuestion { question { title titleSlug } } }\"}"

  // The stats query, cut where the escaped username goes.
  const JsonQueryOpen := "{\"query\":\""
  const JsonQueryClose := "\"}"
  const MatchedUserOpen := "{ matchedUser(username:"
  const MatchedUserRest := SelectSubmissions + SelectCounts + SelectRanking
  const SelectSubmissions := ") { submitStatsGlobal { acSubmissionNum "
  const SelectCounts := "{ difficulty count } } "
  const SelectRanking := "profile { ranking } } }"

  const ProblemsBase := "https://leetcode.com/problems/"
  const NoContestTitle := "No upcoming contest"

  /** The stats request body around an already escaped username. */
  function StatsBody(escaped: string): string {
    JsonQueryOpen + MatchedUserOpen + "\\\"" + escaped + "\\\"" + MatchedUserRest + JsonQueryClose
  }

  /** What the server reads from a stats request body: the body's JSON string is decoded
      into the GraphQL document, whose `username:` literal is decoded in turn; the result
      pairs that username with the document text after the literal. */
  function ArgumentSeen(body: string): Option<(string, string)> {
    ArgumentAfter(body, JsonQueryOpen, MatchedUserOpen + "\"")
  }

  predicate NoBackslash(u: string) {
    forall k :: 0 <= k < |u| ==> u[k] != '\\'
  }

  /** Without backslashes, escaping the quotes is exactly one layer of string-literal escaping. */
  lemma {:induction false} EscapeQuotesIsOneLayer(u: string)
    requires NoBackslash(u)
    ensures EscapeQuotes(u) == Escape(u)
  {
    if u != [] {
      EscapeQuotesIsOneLayer(u[1..]);
    }
  }

  lemma QueryTextIsPlain()
    ensures Plain(MatchedUserOpen) && Plain(MatchedUserRest)
  {
    PiecesArePlain();
  }

  lemma PiecesArePlain()
    ensures Plain(MatchedUserOpen) && Plain(SelectSubmissions) && Plain(SelectCounts) && Plain(SelectRanking)
  {
    OpenIsPlain();
    SubmissionsArePlain();
    CountsArePlain();
    RankingIsPlain();
  }

  lemma OpenIsPlain() ensures Plain(MatchedUserOpen) {}
  lemma SubmissionsArePlain() ensures Plain(SelectSubmissions) {}
  lemma CountsArePlain() ensures Plain(SelectCounts) {}
  lemma RankingIsPlain() ensures Plain(SelectRanking) {}

  /** As written: for a username without backslashes, the GraphQL literal ends at the
      name's first quote, because the JSON layer turns each `\"` back into a bare `"`.
      What the name had after that quote is left in the document, ahead of the
      selection set. */
  lemma {:induction false} AsWrittenEscapingTruncates(u: string, i: nat)
    requires NoBackslash(u) && i < |u| && u[i] == '"' && Plain(u[..i])
    ensures ArgumentSeen(StatsBody(EscapeQuotes(u))) == Some((u[..i], u[i + 1..] + ("\"" + MatchedUserRest)))
    ensures u[..i] != u && |u[i + 1..] + ("\"" + MatchedUserRest)| > |MatchedUserRest|
  {
    EscapeQuotesIsOneLayer(u);
    QueryTextIsPlain();
    NestedArgument(JsonQueryOpen, MatchedUserOpen, MatchedUserRest, u);
    ReadStopsAtQuote(u, i, "\"" + MatchedUserRest);
    assert u + "\"" + MatchedUserRest == u + ("\"" + MatchedUserRest);
  }

  /** The selection set holds no quote, so a string literal opened just before it is
      never closed. */
  lemma SelectionLeavesQuoteOpen()
    ensures ReadQuoted(MatchedUserRest) == None
  {
    QueryTextIsPlain();
    ReadPlain(MatchedUserRest, []);
    assert MatchedUserRest + [] == MatchedUserRest;
  }

  /** A literal whose text has a quote at `i`, and nothing to escape before it, ends there. */
  lemma ReadStopsAtQuote(u: string, i: nat, tail: string)
    requires i < |u| && u[i] == '"' && Plain(u[..i])
    ensures ReadQuoted(u + tail) == Some((u[..i], u[i + 1..] + tail))
  {
    var after := u[i + 1..] + tail;
    assert u + tail == u[..i] + ("\"" + after) by {
      assert u == u[..i] + "\"" + u[i + 1..];
    }
    ReadPlain(u[..i], "\"" + after);
    ReadClosing(after);
    assert u[..i] + [] == u[..i];
  }

  /** For the username `a"b` the literal reads `a`; the leftover `b"` opens a string
      literal that never closes, so the document no longer parses. */
  lemma AsWrittenQuoteExample()
    ensures ArgumentSeen(StatsBody(EscapeQuotes("a\"b"))) == Some(("a", "b\"" + MatchedUserRest))
    ensures ReadQuoted(MatchedUserRest) == None
  {
    QuoteExampleParts();
    AsWrittenEscapingTruncates("a\"b", 1);
    SelectionLeavesQuoteOpen();
  }

  /** How `a"b` splits at its quote. */
  lemma QuoteExampleParts()
    ensures var u := "a\"b";
      && NoBackslash(u) && u[1] == '"' && u[..1] == "a" && Plain(u[..1])
      && u[2..] + ("\"" + MatchedUserRest) == "b\"" + MatchedUserRest
  {
    var u := "a\"b";
    assert u[2..] == "b";
  }

  /** The username escaped for both layers it passes through: first as a GraphQL string
      literal, then, with the rest of the document, as a JSON string. */
  function EscapeUsername(u: string): (r: string)
    ensures Plain(u) ==> r == u == EscapeQuotes(u)
  {
    if Plain(u) then EscapePlain(u); Escape(Escape(u)) else Escape(Escape(u))
  }

  /** With both layers escaped, the server reads back exactly the username, followed by
      exactly the selection set. */
  lemma {:induction false} EscapedUsernameReadBack(username: string)
    ensures ArgumentSeen(StatsBody(Escape(Escape(username)))) == Some((username, MatchedUserRest))
  {
    var rest := "\"" + MatchedUserRest;
    QueryTextIsPlain();
    NestedArgument(JsonQueryOpen, MatchedUserOpen, MatchedUserRest, Escape(username));
    assert Escape(username) + "\"" + MatchedUserRest == Escape(username) + rest;
    ReadEscaped(username, rest);
    ReadClosing(MatchedUserRest);
    assert username + [] == username;
  }

  /** The stats request body for a username. */
  function StatsQuery(username: string): (body: string)
    ensures ArgumentSeen(body) == Some((username, MatchedUserRest))
    ensures Plain(username) ==> body == StatsBody(EscapeQuotes(username))
  {
    EscapedUsernameReadBack(username);
    StatsBody(EscapeUsername(username))
  }

  /** `fetchUsername`: the `userStatus.username` of the decoded response to the user query;
      a failed query fails with its own error. */
  function FetchUsername(cookie: string, send: Request -> Exchange<UserEnvelope>): (r: Result<string, FetchError>)
    ensures var x := send(BuildRequest(UserQuery, cookie));
      && (r.Ok? <==> Classify(x).Ok?)
      && (r.Ok? ==> r.value == x.decoded.value.data.userStatus.username)
      && (r.Err? ==> r.error == Classify(x).error)
  {
    match Query(UserQuery, cookie, send)
    case Err(e) => Err(e)
    case Ok(envelope) => Ok(envelope.userStatus.username)
  }

  /** `fetchStats`: the stats envelope for the given username, asked for with a body in
      which the server reads back exactly that username. */
  function FetchStats(cookie: string, username: string, send: Request -> Exchange<StatsEnvelope>): (r: Result<StatsEnvelope, FetchError>)
    ensures ArgumentSeen(BuildRequest(StatsQuery(username), cookie).body) == Some((username, MatchedUserRest))
    ensures var x := send(BuildRequest(StatsQuery(username), cookie));
      && (r.Ok? <==> Classify(x).Ok?)
      && (r.Ok? ==> r.value == x.decoded.value.data)
      && (r.Err? ==> r.error == Classify(x).error)
  {
    Query(StatsQuery(username), cookie, send)
  }

  /** The sentinel `fetchNextContest` substitutes for an empty list, starting at `now`. */
  function NoContest(now: int): Contest {
    Contest(NoContestTitle, now)
  }

  /** The first upcoming contest, or the sentinel when there is none. */
  function FirstOrSentinel(contests: seq<Contest>, now: int): (c: Contest)
    ensures contests != [] ==> c == contests[0]
    ensures contests == [] ==> c.title == "No upcoming contest" && c.startTime == now
    ensures c in contests || c == NoContest(now)
  {
    if contests == [] then NoContest(now) else contests[0]
  }

  /** `fetchNextContest`: the head of `upcomingContests` in the decoded response, or the
      sentinel when that list is empty. */
  function FetchNextContest(cookie: string, send: Request -> Exchange<ContestListEnvelope>, now: int): (r: Result<Contest, FetchError>)
    ensures var x := send(BuildRequest(ContestQuery, cookie));
      && (r.Ok? <==> Classify(x).Ok?)
      && (r.Ok? ==> r.value == FirstOrSentinel(x.decoded.value.data.upcomingContests, now))
      && (r.Err? ==> r.error == Classify(x).error)
  {
    match Query(ContestQuery, cookie, send)
    case Err(e) => Err(e)
    case Ok(envelope) => Ok(FirstOrSentinel(envelope.upcomingContests, now))
  }

  /** The problem page of a slug: the slug is exactly what follows the fixed base. */
  function ProblemUrl(slug: string): (url: string)
    ensures StartsWith(url, "https://leetcode.com/problems/")
    ensures url[|ProblemsBase|..] == slug
  {
    ProblemsBase + slug
  }

  /** Distinct slugs give distinct pages. */
  lemma ProblemUrlInjective(s: string, t: string)
    requires ProblemUrl(s) == ProblemUrl(t)
    ensures s == t
  {
    assert s == ProblemUrl(s)[|ProblemsBase|..];
  }

  /** `fetchDaily`: the daily question's title and the page built from its slug. */
  function FetchDaily(cookie: string, send: Request -> Exchange<DailyEnvelope>): (r: Result<DailyProblem, FetchError>)
    ensures var x := send(BuildRequest(DailyQuery, cookie));
      && (r.Ok? <==> Classify(x).Ok?)
      && (r.Ok? ==> var q := x.decoded.value.data.activeDailyCodingChallengeQuestion.question;
                    r.value.title == q.title && r.value.url == ProblemUrl(q.titleSlug))
      && (r.Err? ==> r.error == Classify(x).error)
  {
    match Query(DailyQuery, cookie, send)
    case Err(e) => Err(e)
    case Ok(envelope) =>
      var q := envelope.activeDailyCodingChallengeQuestion.question;
      Ok(DailyProblem(q.title, ProblemUrl(q.titleSlug)))
  }
}
