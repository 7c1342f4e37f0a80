# qaapi request dispatch, modelled in Dafny

qaapi is a small question-and-answer web service written in Go (`testing.go`).
Clients create questions, attach answers to them, and list, fetch and delete
both. Nearly all of it hands off to GORM, `net/http` and `encoding/json`. The
logic that is the service's own is modelled and proved here:

- **Route selection.** The two closures registered in `main` decide, from the
  method and the URL path, which of seven handlers runs, or whether to reply
  404 or 405. A POST whose path ends in `/answers` is checked before the switch
  (module `Router`).
- **Path-parameter extraction.** The single-id handlers take `TrimPrefix` and
  then `strconv.Atoi`. The nested answer path is trimmed, split on `/`, must
  have `answers` as its second part, and its first part is then parsed
  (modules `GoStrings`, `StrConv`, `Handlers`).
- **Outcome-to-status mapping.** For each handler, the status and error message
  depend on the parse result, whether the body decoded, and what the
  repository reported. The repository is abstract here, so every error it
  could report is covered (module `Handlers`).
- **The repository rules that are code.** The tables are modelled as a class
  over two maps (module `Store`). A delete reports not-found when no row was
  affected. Creating an answer looks the question up first and inserts nothing
  when the lookup fails.
- **Handlers and closures run against that store.** Each handler is a method
  that does the Go handler's steps in order. It is proved to give the abstract
  reply, a JSON payload and new tables described by pure functions of the old
  tables. The service's end-to-end promises are lemmas over those functions
  (module `Server`).

Files: `wrappers.dfy`, `gostrings.dfy`, `strconv.dfy`, `router.dfy`,
`store.dfy`, `handlers.dfy`, `server.dfy`; one module each.

The in-memory store assumes two things that the Go code leaves to the
database:

- Ids are issued by per-table counters that start at 1. This stands in for
  `autoIncrement` (testing.go:21, 28).
- Deleting a question removes its answers. This stands in for the
  `OnDelete:CASCADE` constraint (testing.go:24).

The store never fails; storage failures are covered by the abstract repository
of module `Handlers`.

Behaviour of the code that a reader might not expect, kept as written:

- `GetQuestionHandler`, `DeleteQuestionHandler`, `GetAnswerHandler` and
  `DeleteAnswerHandler` reply 404 for any repository error, storage failures
  included; they never reply 500.
- `CreateAnswerHandler` replies 400 "question not found" for any repository
  error, storage failures included.
- A delete that fails in the database after affecting no row reports
  not-found, whatever the database's own error was.
- An id is whatever `strconv.Atoi` accepts. That includes a sign and leading
  zeros (`+7`, `-3`, `007`), as `StrConv.AtoiExamples` shows.
- The closures compare the path against both `/questions/` and `/questions`,
  and the model keeps both comparisons.

## Model

| member | source | states |
|---|---|---|
| `GoStrings.HasPrefix` | testing.go:146 | true exactly when the string is at least as long as the prefix and agrees with it character by character from the start |
| `GoStrings.HasSuffix` | testing.go:258 | true exactly when the string is at least as long as the suffix and its last characters agree with the suffix one by one |
| `GoStrings.TrimPrefix` | testing.go:146 | when the prefix is present, prefix + result is the input; otherwise the input is returned unchanged |
| `GoStrings.Split` | testing.go:180 | there is always at least one part, and no part contains the separator |
| `GoStrings.JoinSplit` | testing.go:180 | joining the parts with the separator gives back the original string |
| `GoStrings.SplitJoin` | testing.go:180 | splitting a join of separator-free parts gives back exactly those parts |
| `GoStrings.SplitAtFirstSeparator` | testing.go:180 | the first part ends at the first separator, and the rest is split independently |
| `GoStrings.SplitFirstTwo` | testing.go:180-182 | a string whose split has two or more parts begins with part 0, the separator and part 1, followed by nothing or a separator |
| `GoStrings.SplitIntoFirstTwo` | testing.go:180-182 | conversely, head + separator + word + (nothing or a separator-led tail) splits into head and word first |
| `StrConv.Atoi` | testing.go:147 | succeeds exactly when the string is an optional sign followed by one or more decimal digits whose signed value is in the 64-bit range, and then returns that signed value |
| `StrConv.AtoiExamples` | testing.go:147 | `+7`, `-3` and `007` parse to 7, -3 and 7; a lone sign, a leading space and an underscore are refused |
| `StrConv.DigitsDenote` | testing.go:147 | the decimal rendering of a natural number is all digits and has that number's value |
| `StrConv.AtoiFormatInt` | testing.go:147 | every 64-bit integer rendered in decimal parses back to itself |
| `StrConv.AtoiRejectsSeparator` | testing.go:147-148 | a string containing `/` never parses, so a nested path is never an id |
| `Router.CollectionIsNotNested` | testing.go:258-266 | neither `/questions/` nor `/questions` ends in `/answers`, so the early suffix test never takes a collection path |
| `Router.RouteQuestions` | testing.go:256-275 | for each outcome, exactly the requests that reach it: POST + `/answers` suffix → create answer; GET on a collection path → list; POST on a collection path → create question; other GET → get question; any DELETE → delete question; all other requests → 404; never 405 and never an answer handler |
| `Router.RouteAnswers` | testing.go:277-286 | GET ⇔ get answer, DELETE ⇔ delete answer, any other method ⇔ 405 |
| `Router.NestedAnswersPathRouting` | testing.go:257-271 | a path ending in `/answers` goes to create-answer on POST, whatever precedes the suffix, and to get/delete question on GET/DELETE |
| `Store.DeleteError` | testing.go:81-87 | zero rows affected gives not-found even when the database also reported an error; otherwise the database's error is returned unchanged; nil exactly when a row went and there was no error (same rule at 105-111) |
| `Store.AnswersOf` | testing.go:74 | exactly the answers whose question id is the given one, unchanged |
| `Store.WithoutAnswersOf` | testing.go:24 | exactly the answers of other questions survive the cascade, unchanged |
| `Store.WithQuestion` | testing.go:63-65 | consistency is kept; the new question takes the next id, which was not in use; the table gains exactly that key; old rows and the answers are untouched; only the question counter advances |
| `Store.WithoutQuestion` | testing.go:81-87 | consistency is kept; exactly that question's key goes and every other row is unchanged; the answers are exactly those of other questions; the id counters are untouched; deleting a missing id changes nothing |
| `Store.WithAnswer` | testing.go:89-95 | consistency is kept; the answer takes the next, unused answer id and the table gains exactly that key; old answers and the questions are untouched; only the answer counter advances |
| `Store.WithoutAnswer` | testing.go:105-111 | consistency is kept; exactly that answer's key goes and every other answer is unchanged; questions and counters are untouched; deleting a missing id changes nothing |
| `Store.Database.constructor` | testing.go:52-56 | two empty, consistent tables whose ids start at 1 |
| `Store.Database.CreateQuestion` | testing.go:63-65 | returns the inserted question with a fresh id; the new tables are `WithQuestion` of the old ones |
| `Store.Database.GetAllQuestions` | testing.go:67-70 | returns the question table, without answers |
| `Store.Database.GetQuestionWithAnswers` | testing.go:72-79 | succeeds exactly when the id is stored, returning the question and its answers; otherwise not-found |
| `Store.Database.DeleteQuestion` | testing.go:81-87 | nil error exactly when the question existed; on not-found nothing changes; the new tables are `WithoutQuestion` of the old ones |
| `Store.Database.CreateAnswer` | testing.go:89-95 | looks up the question first: when it is missing, returns not-found and stores nothing; otherwise stores and returns the answer under a fresh id |
| `Store.Database.GetAnswer` | testing.go:97-103 | succeeds exactly when the id is stored and returns that row; otherwise not-found |
| `Store.Database.DeleteAnswer` | testing.go:105-111 | nil error exactly when the answer existed; on not-found nothing changes; the new tables are `WithoutAnswer` of the old ones |
| `Handlers.ParseId` | testing.go:146-147 | an id parses only if the trimmed remainder has no `/` and the id is in the 64-bit range |
| `Handlers.ParseAnswerPath` | testing.go:179-191 | an accepted question id is in the 64-bit range |
| `Handlers.CreateQuestionReply` | testing.go:117-134 | status ∈ {201, 400, 500}; 400 ⇔ body malformed; 201 ⇔ body decoded and insert succeeded |
| `Handlers.ListQuestionsReply` | testing.go:136-143 | status ∈ {200, 500}; 200 ⇔ the query succeeded |
| `Handlers.FetchReply` | testing.go:145-160 | status ∈ {200, 400, 404}; 400 "bad id" ⇔ the remainder is not an integer, whatever the repository would say; 200 ⇔ parsed and found (same for GetAnswerHandler, 214-229) |
| `Handlers.RemoveReply` | testing.go:162-176 | status ∈ {204, 400, 404}; 400 "bad id" ⇔ the remainder is not an integer; 204 ⇔ parsed and deleted (same for DeleteAnswerHandler, 231-245) |
| `Handlers.CreateAnswerReply` | testing.go:178-212 | status ∈ {201, 400}; a bad path gives "bad path" whatever the id, body or repository; then a bad id gives "bad id"; then a malformed body gives "bad request"; 201 ⇔ all three pass and the repository succeeds |
| `Handlers.RouteReply` | testing.go:258-286 | a routed request gets its handler's reply; a request no case matches gets 404 "404 page not found"; 405 is replied exactly for the method-not-allowed route; every status is one the service writes |
| `Handlers.ParseIdOfFormatted` | testing.go:146-147 | the id parsed from prefix + decimal n is n |
| `Handlers.ParseIdRejects` | testing.go:146-151 | an empty remainder and a nested `…/answers` remainder are both rejected before the repository is consulted |
| `Handlers.AnswerPathAccepts` | testing.go:179-191 | `/questions/` + segment without `/` + `/answers` + (nothing or `/…`) passes the shape check, and the result is then `Atoi` of that segment alone |
| `Handlers.AnswerPathShape` | testing.go:179-185 | conversely, every path that passes the shape check has exactly that form after trimming |
| `Handlers.QuestionPathReplies` | testing.go:256-275 | on `/questions/{n}`, GET and DELETE are decided by the repository outcome for n; POST on `/questions/{n}/answers` gives 201 ⇔ body decoded and create succeeded; GET on the nested path is 400 "bad id" |
| `Handlers.AnswerIdReplies` | testing.go:277-286 | on any answer path whose id parses as n, GET and DELETE are decided by the outcome for n, and every other method gives 405 |
| `Handlers.AnswerPathReplies` | testing.go:277-286 | on `/answers/{n}`, GET gives 200/404 and DELETE gives 204/404, by the outcome for n; every other method gives 405 |
| `Server.StoreRepo` | testing.go:63-111 | with the in-memory store, inserts and listing succeed; lookups, deletes and the answer's question lookup succeed exactly when the row is stored, and otherwise report not-found |
| `Server.HandlerPayload` | testing.go:117-229 | a JSON body is written exactly when a handler other than the deletes succeeds; it is the question table for the list, the new question under the next id, the new answer under the next answer id built from the parsed question id and the body's fields, or the row stored under the parsed id (for a question, with all of its answers) |
| `Server.HandlerEffect` | testing.go:117-245 | every handler keeps the tables consistent |
| `Server.HandleRoute` | testing.go:117-245 | the reply is the abstract reply with the store's outcomes; tables stay consistent; a 404/405 from the closure, the three reads, and any failed request leave the tables unchanged, and only handlers write a body |
| `Server.HandleQuestions` | testing.go:256-275 | the reply is the routed `/questions/` reply with the store's outcomes; tables stay consistent; GET changes nothing; any method other than GET, POST and DELETE gets 404 with no change |
| `Server.HandleAnswers` | testing.go:277-286 | the reply is the routed `/answers/` reply with the store's outcomes; tables stay consistent; GET changes nothing; any method other than GET and DELETE gets 405 with no change |
| `Server.ListQuestionsHandler` | testing.go:136-143 | replies 200 with the question table |
| `Server.CreateQuestionHandler` | testing.go:117-134 | the response and new tables are those of `HandleRoute` for create-question |
| `Server.GetQuestionHandler` | testing.go:145-160 | the response is that of `HandleRoute` for get-question: the abstract reply with the store's outcomes, and the question with its answers on 200 |
| `Server.DeleteQuestionHandler` | testing.go:162-176 | the response and new tables are those of `HandleRoute` for delete-question |
| `Server.CreateAnswerHandler` | testing.go:178-212 | the response and new tables are those of `HandleRoute` for create-answer |
| `Server.GetAnswerHandler` | testing.go:214-229 | the response is that of `HandleRoute` for get-answer |
| `Server.DeleteAnswerHandler` | testing.go:231-245 | the response and new tables are those of `HandleRoute` for delete-answer |
| `Server.ServeQuestions` | testing.go:256-275 | the response and new tables are `HandleQuestions` of the old tables |
| `Server.ServeAnswers` | testing.go:277-286 | the response and new tables are `HandleAnswers` of the old tables |
| `Server.FailedRequestChangesNothing` | testing.go:81-111 | with the in-memory store, any request answered with status 400 or above leaves both tables unchanged |
| `Server.CreateThenFetch` | testing.go:117-160 | POST a question gives 201 with the next id; GET by that id gives 200 with the same text and no answers, and changes nothing |
| `Server.AnswerThenFetch` | testing.go:178-229 | POST an answer under a stored question gives 201 with the next answer id and that question id; GET `/answers/{id}` then returns the same answer |
| `Server.FetchStored` | testing.go:145-160 | a GET of any stored question or answer by its id replies 200 with exactly that row, a question with every answer stored under it, and changes nothing |
| `Server.ListAfterCreate` | testing.go:63-70 | after one create, the list has exactly one more question |
| `Server.PostQuestions` | testing.go:63-65 | a sequence of question creates keeps the tables consistent |
| `Server.ListAfterCreates` | testing.go:63-70 | N creates add exactly N questions, advance the question id by N and leave the answers alone |
| `Server.ListAfterCreatesFromEmpty` | testing.go:63-70 | starting from the empty tables, listing after N creates replies 200 with N questions |
| `Server.DeleteCascades` | testing.go:24 | DELETE of a question gives 204, and a later GET of any answer created under it gives 404 |
| `Server.AnswerToMissingQuestion` | testing.go:89-95 | POST of an answer under a missing question gives 400 and stores nothing |
| `Server.MissingIdsAreNotFound` | testing.go:145-176 | GET or DELETE of an id that is not stored, for a question or an answer, gives 404 and changes nothing |

## Left out

- `connectDB` (testing.go:41-57): reading the environment, opening the connection, `AutoMigrate` and `log.Fatalf` are start-up I/O. The store starts from empty tables.
- GORM's query semantics (`First`, `Preload`, `Find`, `Create`, `Delete`, `RowsAffected`): a foreign library. The store stands in for it with maps, and the abstract repository stands in for its errors.
- The store's storage failures: the in-memory tables never fail. The 500 replies and the storage-failure branches are covered only through the abstract repository of `Handlers`.
- JSON decoding and encoding: a request body is either its decoded fields or malformed, as one flag per request. The model does not capture that a body can decode into the question struct but not into the answer struct. Responses carry the value that would be encoded, not its bytes.
- The `created_at` timestamps (`autoCreateTime`): clock values, left out of the rows.
- The exact bytes of error bodies: `http.Error` appends a newline and sets headers; the model keeps the message text only.
- The order of listed questions and loaded answers: GORM does not fix one, so both are modelled as maps from id to row.
- `http.ServeMux`: the choice of closure by path prefix, and its redirect of `/questions` to `/questions/`, are library behaviour. The two closures are modelled as separate entry points over any path.
- `ListenAndServe` and the concurrency of requests: network and runtime concerns. Requests are modelled one at a time.
- StrConv.Atoi: returns `None` for both of Go's error kinds (`ErrSyntax` and `ErrRange`). It does not say which one Go would report, because every caller maps any error to 400.
- Go's `int`: taken to be 64 bits wide, as on the usual 64-bit platforms, so ids range over the signed 64-bit integers. A 32-bit build, where `strconv.Atoi` refuses values beyond 32 bits, is not modelled.
- Strings: Go's strings are bytes, while the model's `string` is a sequence of characters. Every separator, sign and digit the code tests (`/`, `+`, `-`, `0`-`9`, the path prefixes) is ASCII, so splitting, trimming and parsing agree on both readings.
- Store.WithQuestion, Store.WithAnswer: the id counters are unbounded, so they may grow past the largest 64-bit `int`. A database sequence running out of ids is a storage failure, which the in-memory store never reports. This is why the end-to-end lemmas that format a new id require it to be at most `MAX_INT64`.
