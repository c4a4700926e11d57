/** The records the pipeline decodes and publishes: the GraphQL envelope, the four
    response payloads, and the `Contest` / `DailyProblem` models. Timestamps are
    whole seconds since 1970. */
module Models {
  import opened Wrappers

  /** One entry of the envelope's `errors` list. */
  datatype GraphQLError = GraphQLError(message: string, path: Option<seq<string>>)

  /** The wire envelope `{ data, errors? }`; `errors` may accompany usable `data`. */
  datatype GraphQLRoot<T> = GraphQLRoot(data: T, errors: Option<seq<GraphQLError>>)

  datatype Contest = Contest(title: string, startTime: int)

  datatype DailyProblem = DailyProblem(title: string, url: string)

  // Payload of `{ userStatus { username } }`.
  datatype UserStatus = UserStatus(username: string)
  datatype UserEnvelope = UserEnvelope(userStatus: UserStatus)

  // Payload of the `matchedUser` query.
  datatype AC = AC(difficulty: string, count: int)
  datatype SubmitStatsGlobal = SubmitStatsGlobal(acSubmissionNum: seq<AC>)
  datatype Profile = Profile(ranking: Option<int>)
  datatype MatchedUser = MatchedUser(submitStatsGlobal: SubmitStatsGlobal, profile: Profile)
  datatype StatsEnvelope = StatsEnvelope(matchedUser: Option<MatchedUser>)

  // Payload of `{ upcomingContests { title startTime } }`.
  datatype ContestListEnvelope = ContestListEnvelope(upcomingContests: seq<Contest>)

  // Payload of `{ activeDailyCodingChallengeQuestion { question { title titleSlug } } }`.
  datatype Question = Question(title: string, titleSlug: string)
  datatype ActiveDaily = ActiveDaily(question: Question)
  datatype DailyEnvelope = DailyEnvelope(activeDailyCodingChallengeQuestion: ActiveDaily)
}
