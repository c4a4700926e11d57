# LeetCodeStats: the authentication-and-fetch pipeline, in Dafny

LeetCodeStats is a macOS menu-bar dashboard for one LeetCode account. This project models its
only logic with real control flow, `LeetCodeViewModel`:

- how a session token is found: Keychain, then the browser's `LEETCODE_SESSION` cookie, then a
  paste-it-here prompt; newly found tokens are saved to the Keychain;
- how each GraphQL request is built and how its response is classified: HTTP status, then an
  HTML login page standing in for JSON, then decoding;
- the four queries (username, solved counts and ranking, next contest, daily problem) and what
  each payload becomes;
- the order in which `load` publishes results, and the error marker it shows on any failure;
- the contest reminder, 15 minutes before the start, under one fixed identifier.

The operating-system collaborators are inputs. The Keychain is a class holding one optional token
plus a ghost log of saves. The browser jar is a sequence of cookies, and the prompt's outcome is
an optional reply. The server is four total functions from `Request` to `Exchange` (status, body
text, decoded envelope). The notification center is a class holding a list of pending requests.
Time is whole seconds.

Modules, one per file:
- `Wrappers` (`wrappers.dfy`): Option and Result.
- `Text` (`text.dfy`): whitespace trimming, the HTML-marker test and lowercasing.
- `Models` (`models.dfy`): the GraphQL envelope, the payloads, `Contest` and `DailyProblem`.
- `GraphQLClient` (`graphql_client.dfy`): the request and the classification of responses.
- `QueryEscaping` (`query_escaping.dfy`): string-literal escaping and reading, shared by JSON and GraphQL.
- `Queries` (`queries.dfy`): the four fetches.
- `Credentials` (`credentials.dfy`): the cookie jar, the prompt rule and the Keychain.
- `Reminders` (`reminders.dfy`): the notification center and the reminder rule.
- `ViewModel` (`view_model.dfy`): the published state, `load` and `apply(stats:)`.

## Model

| member | source | states |
|---|---|---|
| `GraphQLClient.BuildRequest` | LeetCodeStats/LeetCodeViewModel.swift:162-171 | The request is a POST to the GraphQL endpoint carrying the given body. Its Cookie header gives back exactly the session token. It has JSON content type, a non-empty user agent, the site as referer and a 30-second timeout. |
| `GraphQLClient.Classify` | LeetCodeStats/LeetCodeViewModel.swift:174-191 | A status other than 200 fails as `ApiError` with that code, whatever the body is. Otherwise, a body that is only whitespace before a `<` fails as `AuthenticationError`. Otherwise a failed decode is a decoding error, and a decoded envelope yields its `data` whatever `errors` holds. Each outcome is stated in both directions. |
| `Text.TrimStart` | LeetCodeStats/LeetCodeViewModel.swift:185 | Removes only leading whitespace. The result is a suffix that starts with a non-whitespace character. |
| `Text.TrimEnd` | LeetCodeStats/LeetCodeViewModel.swift:185 | Removes only trailing whitespace. The result is a prefix that ends with a non-whitespace character. |
| `Text.Trim` | LeetCodeStats/LeetCodeViewModel.swift:282 | The result is the slice of the text left between a leading and a trailing run of whitespace. It is empty exactly when the text is all whitespace; otherwise it starts and ends with non-whitespace. |
| `Text.LooksLikeHtmlIff` | LeetCodeStats/LeetCodeViewModel.swift:185 | "Trimmed text starts with `<`" holds exactly when some `<` in the text is preceded only by whitespace. |
| `Text.Lowercased` | LeetCodeStats/LeetCodeViewModel.swift:226 | Keeps the length and maps each character through ASCII case folding. |
| `Text.LowercasedIdempotent` | LeetCodeStats/LeetCodeViewModel.swift:226 | A lowercased key has no upper-case letter, so lowercasing it again changes nothing. |
| `QueryEscaping.EscapeQuotes` | LeetCodeStats/LeetCodeViewModel.swift:201 | The escaping as written: every `"` in the result is preceded by a backslash. A name without quotes or backslashes is unchanged. |
| `QueryEscaping.EscapeQuotesRoundTrip` | LeetCodeStats/LeetCodeViewModel.swift:201 | Removing the backslash before each quote gives the username back. The escaping loses nothing. |
| `Queries.AsWrittenEscapingTruncates` | LeetCodeStats/LeetCodeViewModel.swift:201-202 | With the escaping as written, take a username without backslashes. The GraphQL literal ends at the name's first `"`, so the server reads only the part before it. The part after that quote, and the quote that was meant to close the literal, are left in the document ahead of the selection set. |
| `Queries.AsWrittenQuoteExample` | LeetCodeStats/LeetCodeViewModel.swift:201-202 | For the username `a"b`, the literal reads `a` and the document continues with `b"` and the selection set. That last `"` opens a string literal that never closes. |
| `Queries.SelectionLeavesQuoteOpen` | LeetCodeStats/LeetCodeViewModel.swift:202 | The text after the username literal contains no `"`, so a string literal opened just before it never closes. |
| `Queries.EscapeUsername` | LeetCodeStats/LeetCodeViewModel.swift:201 | The corrected escaping. It agrees with the escaping as written on every name that has no `"` and no `\`. |
| `Queries.StatsQuery` | LeetCodeStats/LeetCodeViewModel.swift:201-202 | After the JSON layer and then the GraphQL literal are decoded, the server reads back exactly the username, followed by exactly the selection set. This holds for every username. For ordinary names the body is the same as the source's. |
| `Queries.FetchUsername` | LeetCodeStats/LeetCodeViewModel.swift:194-198 | Succeeds exactly when the response passes `query`'s checks. It then yields `userStatus.username` of the decoded envelope; otherwise it fails with `query`'s error. |
| `Queries.FetchStats` | LeetCodeStats/LeetCodeViewModel.swift:200-204 | The request reads back as exactly the given username followed by the selection set. The result is the decoded stats envelope, or `query`'s error. |
| `Queries.FirstOrSentinel` | LeetCodeStats/LeetCodeViewModel.swift:209 | Gives the first contest of a non-empty list. For an empty list it gives the contest titled "No upcoming contest" starting now. |
| `Queries.FetchNextContest` | LeetCodeStats/LeetCodeViewModel.swift:206-210 | Yields the first upcoming contest, or the sentinel when the decoded list is empty. Fails with `query`'s error. |
| `Queries.ProblemUrl` | LeetCodeStats/LeetCodeViewModel.swift:216 | The URL starts with `https://leetcode.com/problems/`, and what follows is exactly the slug. |
| `Queries.ProblemUrlInjective` | LeetCodeStats/LeetCodeViewModel.swift:216 | Different slugs give different URLs. |
| `Queries.FetchDaily` | LeetCodeStats/LeetCodeViewModel.swift:212-217 | Yields the daily question's title and the URL built from its slug, or `query`'s error. |
| `Credentials.BrowserCookie` | LeetCodeStats/LeetCodeViewModel.swift:105-110 | None exactly when no cookie is named `LEETCODE_SESSION`. Otherwise it gives the value of the first such cookie. |
| `Credentials.AcceptedToken` | LeetCodeStats/LeetCodeViewModel.swift:282-289 | Accepts a reply exactly when Submit was pressed and the field is not all whitespace. The token is then the trimmed field, non-empty with no surrounding whitespace. |
| `Credentials.SessionChoice` | LeetCodeStats/LeetCodeViewModel.swift:77-103 | A stored token wins whatever the jar and the prompt hold. With an empty Keychain, the jar's first session cookie wins over the prompt. With neither, the token is what the prompt accepted, and nothing when the prompt went unanswered. There is no token exactly when all three come up empty. |
| `ViewModel.LeetCodeViewModel.ObtainCookie` | LeetCodeStats/LeetCodeViewModel.swift:77-103 | A stored token is returned with no save. Otherwise the chosen token is saved exactly once and becomes the stored one. No token means no save. |
| `ViewModel.LeetCodeViewModel.PromptForCookie` | LeetCodeStats/LeetCodeViewModel.swift:264-291 | Returns the accepted token after saving it once. Cancel or a blank field returns nothing and saves nothing. |
| `ViewModel.LeetCodeViewModel.Load` | LeetCodeStats/LeetCodeViewModel.swift:51-75 | With no token, nothing changes and no request is sent. Otherwise the requests go out in order up to the first failure. Success publishes the username, the applied stats, the contest and the daily problem, and schedules the reminder. Failure sets the username to "(error - check console)" and leaves the rest unchanged. The Keychain then holds its old token, or else the newly found one, and its log gains exactly that new token. |
| `ViewModel.LeetCodeViewModel.Refresh` | LeetCodeStats/LeetCodeViewModel.swift:56-74 | The `do`/`catch` block of `load`, with the same state relation for a given token. |
| `ViewModel.LeetCodeViewModel.Publish` | LeetCodeStats/LeetCodeViewModel.swift:67-70 | The statistics become `Applied` of their old values, and the contest and daily problem are shown. The reminder is scheduled for that contest, while the username and the request log are kept. |
| `ViewModel.LeetCodeViewModel.Apply` | LeetCodeStats/LeetCodeViewModel.swift:223-234 | The statistics fields become `Applied` of their old values. No other published field changes. |
| `ViewModel.LeetCodeViewModel.ScheduleNotification` | LeetCodeStats/LeetCodeViewModel.swift:236-257 | Pending requests become `Scheduled(old pending, contest, permission)`. |
| `ViewModel.LeetCodeViewModel.constructor` | LeetCodeStats/LeetCodeViewModel.swift:41-48 | Starts with username "(loading…)", no ranking, zero counts, and no contest or daily problem. |
| `ViewModel.CountsByDifficulty` | LeetCodeStats/LeetCodeViewModel.swift:225-227 | The `reduce(into:)` loop builds exactly the left fold `CountsOf`. |
| `ViewModel.CountsOfLastWins` | LeetCodeStats/LeetCodeViewModel.swift:225-227 | A key is in the dictionary exactly when some entry's lowercased difficulty is that key. Its value is the count of the last such entry. |
| `ViewModel.SolvedCountIsLastEntry` | LeetCodeStats/LeetCodeViewModel.swift:230-233 | A defaulted count is 0 when no entry has the key. Otherwise it is the count of the last entry that has it. |
| `ViewModel.UnknownDifficultyIgnored` | LeetCodeStats/LeetCodeViewModel.swift:230-233 | Adding an entry whose difficulty is not all/easy/medium/hard changes nothing. |
| `ViewModel.TypicalResponse` | LeetCodeStats/LeetCodeViewModel.swift:223-234 | `All 10, Easy 4, Medium 4, Hard 2` gives total 10, easy 4, medium 4, hard 2, and copies the ranking. |
| `ViewModel.PipelineSucceedsIff` | LeetCodeStats/LeetCodeViewModel.swift:56-69 | The load succeeds exactly when all four responses pass `query`'s checks. The stats response checked is the one to the request naming the fetched user. |
| `ViewModel.RequestsIssuedInOrder` | LeetCodeStats/LeetCodeViewModel.swift:56-65 | Between one and four requests are sent, all four on success. Each carries the token. The second reads back as exactly the username the first returned. |
| `ViewModel.UserStepFails` | LeetCodeStats/LeetCodeViewModel.swift:56-57 | When the username fetch fails, the load fails after one request. |
| `ViewModel.StatsStepFails` | LeetCodeStats/LeetCodeViewModel.swift:56-59 | When the stats fetch fails, the load fails after the user and stats requests. |
| `ViewModel.ContestStepFails` | LeetCodeStats/LeetCodeViewModel.swift:56-62 | When the contest fetch fails, the load fails after three requests, the last being the contest query. |
| `ViewModel.AllRequestsSent` | LeetCodeStats/LeetCodeViewModel.swift:56-69 | Once the first three fetches succeed, all four requests are sent. The load then succeeds with the four fetched values exactly when the daily fetch does. |
| `ViewModel.ExpiredSessionAtStats` | LeetCodeStats/LeetCodeViewModel.swift:59 | An HTML page in answer to the stats query fails the load as `AuthenticationError` after two requests. |
| `ViewModel.EmptyContestListSchedulesPastReminder` | LeetCodeStats/LeetCodeViewModel.swift:209 | With no upcoming contest, the sentinel is published, and its reminder's fire time is already in the past. |
| `Reminders.ReminderFor` | LeetCodeStats/LeetCodeViewModel.swift:245-254 | The request is non-repeating, uses the identifier `contest-reminder`, and fires 900 seconds before the contest starts. |
| `Reminders.Without` | LeetCodeStats/LeetCodeViewModel.swift:243 | Keeps exactly the pending requests whose identifier differs. |
| `Reminders.ScheduledKeepsOneReminder` | LeetCodeStats/LeetCodeViewModel.swift:243-255 | After scheduling, exactly one `contest-reminder` is pending and it is the new one. All other pending requests are kept. |
| `Reminders.ScheduleIdempotent` | LeetCodeStats/LeetCodeViewModel.swift:236-257 | Scheduling twice leaves the same pending requests as scheduling once. |

## Left out

- `Text.Lowercased`: does not model Swift's full Unicode case mapping. Only ASCII `A`–`Z` are folded, which covers the difficulty names the server sends.
- `Text.LooksLikeHtmlIff`: does not model `hasPrefix`'s comparison of grapheme clusters. The first Unicode scalar is compared, so `<` followed by a combining mark counts as a tag here.
- `ViewModel.LeetCodeViewModel.ScheduleNotification`: does not model the calendar step. The fire time is stated as start − 900 seconds, without truncation to the minute in the local time zone and without the `Calendar` fallback. The authorization callback is taken to run at once, not later.
- `ViewModel.LeetCodeViewModel.ObtainCookie`: the prompt runs in a `Task` and is polled for 0.1 s. Its outcome is an input, and `None` means the poll ended first. A later answer's Keychain save is not modelled.
- `ViewModel.LeetCodeViewModel.Load`: the two `Task.sleep` pauses are not modelled. So is the cancellation error they can throw, which would also show the error marker. Concurrent `load` calls, `@MainActor` and `print` logging are out too.
- `Queries.FetchStats`: uses the corrected escaping described under Findings. It differs from the source only for usernames containing `"` or `\`.
- `Queries.FetchDaily`: the URL is a string. The crash of the force-unwrapped `URL(string:)` on a slug that is not a valid URL is not modelled.
- `GraphQLClient.Classify`: the URLSession transport is an input, and its 30-second timeout is only recorded in the request. JSON decoding is an abstract outcome. The error descriptions (`"HTTP <code>"` and the expired-cookie text) are not kept.
- `Contest.init(from:)`: JSON parsing and the `Double` epoch timestamp are not modelled. Start times are whole seconds.
- `QueryEscaping.ReadQuoted`: `\u` escapes and the rejection of raw control characters in JSON and GraphQL strings are not modelled. Neither escaping escapes control characters.
- `QueryEscaping.ArgumentAfter`: the server is modelled only as far as the JSON string, the `username:` literal and the document text after it. The GraphQL document is not parsed further.
- Keychain.swift is not part of this model. The Keychain is one optional stored token whose save overwrites it, with a log of saves.
- `HTTPCookieStorage` domain matching is not modelled. The jar is given as the cookies for leetcode.com.
- `UNUserNotificationCenter.add` is modelled as an append. The system's own replacement of a request with the same identifier is not relied on, so at most one reminder comes from the source's removal step.
- Presentation (`DashboardView`, `AppDelegate`, `ProgressCircle`, `ContentView`, the app entry point) is not modelled. That includes `usernameColor` and the `problem.isSolved` reference, which `DailyProblem` does not have.

## Findings

| source | as written | input that shows it | evidently intended | confidence | as-written member | corrected member |
|---|---|---|---|---|---|---|
| LeetCodeStats/LeetCodeViewModel.swift:201-202 | Each `"` in the username becomes `\"` once. The name then sits inside a GraphQL string inside the JSON request body. Decoding the JSON turns `\"` back into a bare `"`, which ends the GraphQL literal. A `\` is not escaped at all. | username `a"b`: the GraphQL literal ends after `a`, and the leftover `b"` opens a literal that never closes, so the query no longer parses | Escape `\` and `"` for the GraphQL literal, then again for the JSON string, so the server reads the username unchanged | not executed; latent while usernames contain neither `"` nor `\` | `Queries.AsWrittenEscapingTruncates` | `Queries.StatsQuery` |
