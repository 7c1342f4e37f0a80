/**
  The seven HTTP handlers, reduced to what decides their status: the path
  parameter they extract, whether the JSON body decoded, and what the
  repository reported. The repository is abstract here (a `Repo` record of
  outcomes, indexed by id where the call takes one), so every error the
  database could report is covered, including failures the in-memory store of
  module `Store` never produces.
*/
module Handlers {
  import opened Wrappers
  import opened GoStrings
  import opened StrConv
  import opened Router
  import opened Store

  const QUESTIONS_PREFIX := "/questions/"
  const ANSWERS_PREFIX := "/answers/"

  const STATUS_OK := 200
  const STATUS_CREATED := 201
  const STATUS_NO_CONTENT := 204
  const STATUS_BAD_REQUEST := 400
  const STATUS_NOT_FOUND := 404
  const STATUS_METHOD_NOT_ALLOWED := 405
  const STATUS_INTERNAL_SERVER_ERROR := 500

  /**
    A handler's status line and, on an error, the plain-text message it writes
    with `http.Error` (empty when the body is JSON or absent).
  */
  datatype Reply = Reply(status: int, message: string)

  /** What each repository function reports; calls that take an id are indexed by it. */
  datatype Repo = Repo(
    createQuestion: Outcome,
    listQuestions: Outcome,
    getQuestion: int -> Outcome,
    deleteQuestion: int -> Outcome,
    createAnswer: int -> Outcome,
    getAnswer: int -> Outcome,
    deleteAnswer: int -> Outcome)

  /** Why the nested answer path was refused. */
  datatype PathError = BadPath | BadId

  /** The id of a single-entity path: `Atoi` of everything after the prefix. */
  function ParseId(path: string, prefix: string): (r: Option<int>)
    ensures r.Some? ==> '/' !in TrimPrefix(path, prefix)
    ensures r.Some? ==> MIN_INT64 <= r.value <= MAX_INT64
  {
    Atoi(TrimPrefix(path, prefix))
  }

  /**
    The question id of a `/questions/{id}/answers` path: the trimmed path must
    split into at least two `/`-separated parts whose second is `answers`, and
    only then is the first part parsed as an integer.
  */
  function ParseAnswerPath(path: string): (r: Result<int, PathError>)
    ensures r.Ok? ==> MIN_INT64 <= r.value <= MAX_INT64
  {
    var parts := Split(TrimPrefix(path, QUESTIONS_PREFIX), '/');
    if |parts| < 2 || parts[1] != "answers" then Err(BadPath)
    else
      match Atoi(parts[0])
      case None => Err(BadId)
      case Some(id) => Ok(id)
  }

  /** `CreateQuestionHandler`: 400 on a malformed body, 500 on any repository error, else 201. */
  function CreateQuestionReply(decoded: bool, created: Outcome): (r: Reply)
    ensures r.status in {STATUS_CREATED, STATUS_BAD_REQUEST, STATUS_INTERNAL_SERVER_ERROR}
    ensures r.status == STATUS_BAD_REQUEST <==> !decoded
    ensures r.status == STATUS_CREATED <==> decoded && created.Pass?
  {
    if !decoded then Reply(STATUS_BAD_REQUEST, "bad request")
    else if created.Fail? then Reply(STATUS_INTERNAL_SERVER_ERROR, "internal")
    else Reply(STATUS_CREATED, "")
  }

  /** `GetAllQuestionsHandler`: 500 on any repository error, else 200. */
  function ListQuestionsReply(listed: Outcome): (r: Reply)
    ensures r.status in {STATUS_OK, STATUS_INTERNAL_SERVER_ERROR}
    ensures r.status == STATUS_OK <==> listed.Pass?
  {
    if listed.Fail? then Reply(STATUS_INTERNAL_SERVER_ERROR, "internal")
    else Reply(STATUS_OK, "")
  }

  /**
    `GetQuestionHandler` and `GetAnswerHandler`: 400 unless the rest of the path
    is an integer, in which case the repository is never asked; then 404 on any
    repository error, else 200.
  */
  function FetchReply(prefix: string, path: string, lookup: int -> Outcome): (r: Reply)
    ensures r.status in {STATUS_OK, STATUS_BAD_REQUEST, STATUS_NOT_FOUND}
    ensures r.status == STATUS_BAD_REQUEST <==> ParseId(path, prefix).None?
    ensures ParseId(path, prefix).None? ==> r == Reply(STATUS_BAD_REQUEST, "bad id")
    ensures r.status == STATUS_OK <==>
      ParseId(path, prefix).Some? && lookup(ParseId(path, prefix).value).Pass?
  {
    match ParseId(path, prefix)
    case None => Reply(STATUS_BAD_REQUEST, "bad id")
    case Some(id) =>
      if lookup(id).Fail? then Reply(STATUS_NOT_FOUND, "not found") else Reply(STATUS_OK, "")
  }

  /**
    `DeleteQuestionHandler` and `DeleteAnswerHandler`: 400 unless the rest of
    the path is an integer, then 404 on any repository error, else 204.
  */
  function RemoveReply(prefix: string, path: string, remove: int -> Outcome): (r: Reply)
    ensures r.status in {STATUS_NO_CONTENT, STATUS_BAD_REQUEST, STATUS_NOT_FOUND}
    ensures r.status == STATUS_BAD_REQUEST <==> ParseId(path, prefix).None?
    ensures ParseId(path, prefix).None? ==> r == Reply(STATUS_BAD_REQUEST, "bad id")
    ensures r.status == STATUS_NO_CONTENT <==>
      ParseId(path, prefix).Some? && remove(ParseId(path, prefix).value).Pass?
  {
    match ParseId(path, prefix)
    case None => Reply(STATUS_BAD_REQUEST, "bad id")
    case Some(id) =>
      if remove(id).Fail? then Reply(STATUS_NOT_FOUND, "not found") else Reply(STATUS_NO_CONTENT, "")
  }

  /**
    `CreateAnswerHandler`: the path shape is checked first, then the id, then
    the body, and only then is the repository asked; any repository error is
    reported as 400 "question not found".
  */
  function CreateAnswerReply(path: string, decoded: bool, create: int -> Outcome): (r: Reply)
    ensures r.status in {STATUS_CREATED, STATUS_BAD_REQUEST}
    ensures ParseAnswerPath(path) == Err(BadPath) ==> r == Reply(STATUS_BAD_REQUEST, "bad path")
    ensures ParseAnswerPath(path) == Err(BadId) ==> r == Reply(STATUS_BAD_REQUEST, "bad id")
    ensures ParseAnswerPath(path).Ok? && !decoded ==> r == Reply(STATUS_BAD_REQUEST, "bad request")
    ensures r.status == STATUS_CREATED <==>
      ParseAnswerPath(path).Ok? && decoded && create(ParseAnswerPath(path).value).Pass?
  {
    match ParseAnswerPath(path)
    case Err(BadPath) => Reply(STATUS_BAD_REQUEST, "bad path")
    case Err(BadId) => Reply(STATUS_BAD_REQUEST, "bad id")
    case Ok(id) =>
      if !decoded then Reply(STATUS_BAD_REQUEST, "bad request")
      else if create(id).Fail? then Reply(STATUS_BAD_REQUEST, "question not found")
      else Reply(STATUS_CREATED, "")
  }

  /** The reply of one handler, given the request and the repository's outcomes. */
  function HandlerReply(h: Handler, path: string, decoded: bool, repo: Repo): Reply {
    match h
    case ListQuestions => ListQuestionsReply(repo.listQuestions)
    case CreateQuestion => CreateQuestionReply(decoded, repo.createQuestion)
    case GetQuestion => FetchReply(QUESTIONS_PREFIX, path, repo.getQuestion)
    case DeleteQuestion => RemoveReply(QUESTIONS_PREFIX, path, repo.deleteQuestion)
    case CreateAnswer => CreateAnswerReply(path, decoded, repo.createAnswer)
    case GetAnswer => FetchReply(ANSWERS_PREFIX, path, repo.getAnswer)
    case DeleteAnswer => RemoveReply(ANSWERS_PREFIX, path, repo.deleteAnswer)
  }

  /** The reply when the closure answers by itself. */
  function RouteReply(route: Route, path: string, decoded: bool, repo: Repo): (r: Reply)
    ensures route == NotFound ==> r == Reply(STATUS_NOT_FOUND, "404 page not found")
    ensures r.status == STATUS_METHOD_NOT_ALLOWED <==> route == MethodNotAllowed
    ensures route.Handle? ==> r == HandlerReply(route.handler, path, decoded, repo)
    ensures r.status in {STATUS_OK, STATUS_CREATED, STATUS_NO_CONTENT, STATUS_BAD_REQUEST,
                         STATUS_NOT_FOUND, STATUS_METHOD_NOT_ALLOWED, STATUS_INTERNAL_SERVER_ERROR}
  {
    match route
    case Handle(h) => HandlerReply(h, path, decoded, repo)
    case NotFound => Reply(STATUS_NOT_FOUND, "404 page not found")
    case MethodNotAllowed => Reply(STATUS_METHOD_NOT_ALLOWED, "method not allowed")
  }

  /** A request to the `/questions/` subtree, routed and handled. */
  function QuestionsReply(verb: string, path: string, decoded: bool, repo: Repo): Reply {
    RouteReply(RouteQuestions(verb, path), path, decoded, repo)
  }

  /** A request to the `/answers/` subtree, routed and handled. */
  function AnswersReply(verb: string, path: string, repo: Repo): Reply {
    RouteReply(RouteAnswers(verb), path, false, repo)
  }

  /** Removing a prefix that is there leaves exactly what followed it. */
  lemma TrimPrefixOf(prefix: string, rest: string)
    ensures TrimPrefix(prefix + rest, prefix) == rest
  {
  }

  /** The id in `prefix + FormatInt(n)` is `n`. */
  lemma ParseIdOfFormatted(prefix: string, n: int)
    requires MIN_INT64 <= n <= MAX_INT64
    ensures ParseId(prefix + FormatInt(n), prefix) == Some(n)
  {
    TrimPrefixOf(prefix, FormatInt(n));
    AtoiFormatInt(n);
  }

  /**
    The single-id handlers reject an empty remainder and a nested path such as
    `1/answers` before the repository is consulted.
  */
  lemma ParseIdRejects(prefix: string, head: string)
    ensures ParseId(prefix, prefix).None?
    ensures ParseId(prefix + head + ANSWERS_SUFFIX, prefix).None?
  {
  }

  /**
    Which nested paths the answer-creation parser accepts: a first segment
    without `/`, then `/answers`, then nothing or another `/`-led segment. The
    result is then decided by `Atoi` of the first segment alone.
  */
  lemma AnswerPathAccepts(head: string, tail: string)
    requires '/' !in head
    requires tail == [] || tail[0] == '/'
    ensures ParseAnswerPath(QUESTIONS_PREFIX + head + ANSWERS_SUFFIX + tail) ==
      match Atoi(head)
      case None => Err(BadId)
      case Some(id) => Ok(id)
  {
    var word := "answers";
    var rest := head + ['/'] + word + tail;
    assert QUESTIONS_PREFIX + head + ANSWERS_SUFFIX + tail == QUESTIONS_PREFIX + rest;
    TrimPrefixOf(QUESTIONS_PREFIX, rest);
    SplitIntoFirstTwo(head, word, tail, '/');
  }

  /**
    Conversely, every path the parser does not refuse as `BadPath` has that
    shape: its trimmed form is a `/`-free segment, `/answers`, and nothing or
    a `/`-led rest.
  */
  lemma AnswerPathShape(path: string)
    requires ParseAnswerPath(path) != Err(BadPath)
    ensures var rest := TrimPrefix(path, QUESTIONS_PREFIX);
            var head := Split(rest, '/')[0];
            var n := |head| + |ANSWERS_SUFFIX|;
            '/' !in head && n <= |rest| && rest[..n] == head + ANSWERS_SUFFIX && (n == |rest| || rest[n] == '/')
  {
    var rest := TrimPrefix(path, QUESTIONS_PREFIX);
    SplitFirstTwo(rest, '/');
  }

  /**
    Requests on well-formed question paths: the routed reply is decided by the
    repository's outcome for exactly the id written in the path, and the nested
    path is a bad id for every method but POST.
  */
  lemma QuestionPathReplies(n: int, decoded: bool, repo: Repo)
    requires MIN_INT64 <= n <= MAX_INT64
    ensures QuestionsReply(METHOD_GET, QUESTIONS_PREFIX + FormatInt(n), decoded, repo).status ==
      if repo.getQuestion(n).Pass? then STATUS_OK else STATUS_NOT_FOUND
    ensures QuestionsReply(METHOD_DELETE, QUESTIONS_PREFIX + FormatInt(n), decoded, repo).status ==
      if repo.deleteQuestion(n).Pass? then STATUS_NO_CONTENT else STATUS_NOT_FOUND
    ensures QuestionsReply(METHOD_POST, QUESTIONS_PREFIX + FormatInt(n) + ANSWERS_SUFFIX, decoded, repo).status ==
      if decoded && repo.createAnswer(n).Pass? then STATUS_CREATED else STATUS_BAD_REQUEST
    ensures QuestionsReply(METHOD_GET, QUESTIONS_PREFIX + FormatInt(n) + ANSWERS_SUFFIX, decoded, repo) ==
      Reply(STATUS_BAD_REQUEST, "bad id")
  {
    var path := QUESTIONS_PREFIX + FormatInt(n);
    ParseIdOfFormatted(QUESTIONS_PREFIX, n);
    assert !IsCollectionPath(path) by {
      assert path[..|QUESTIONS_PREFIX|] == QUESTIONS_PREFIX;
    }
    AtoiFormatInt(n);
    assert '/' !in FormatInt(n);
    AnswerPathAccepts(FormatInt(n), []);
    assert QUESTIONS_PREFIX + FormatInt(n) + ANSWERS_SUFFIX + [] == path + ANSWERS_SUFFIX;
    NestedAnswersPathRouting(path);
    ParseIdRejects(QUESTIONS_PREFIX, FormatInt(n));
  }

  /** The routed reply on an answer path whose id parses as `n`. */
  lemma AnswerIdReplies(verb: string, path: string, n: int, repo: Repo)
    requires ParseId(path, ANSWERS_PREFIX) == Some(n)
    ensures AnswersReply(verb, path, repo).status ==
      if verb == METHOD_GET then (if repo.getAnswer(n).Pass? then STATUS_OK else STATUS_NOT_FOUND)
      else if verb == METHOD_DELETE then (if repo.deleteAnswer(n).Pass? then STATUS_NO_CONTENT else STATUS_NOT_FOUND)
      else STATUS_METHOD_NOT_ALLOWED
  {
  }

  /** Requests on well-formed answer paths, and the 405 for every other method. */
  lemma AnswerPathReplies(verb: string, n: int, repo: Repo)
    requires MIN_INT64 <= n <= MAX_INT64
    ensures AnswersReply(verb, ANSWERS_PREFIX + FormatInt(n), repo).status ==
      if verb == METHOD_GET then (if repo.getAnswer(n).Pass? then STATUS_OK else STATUS_NOT_FOUND)
      else if verb == METHOD_DELETE then (if repo.deleteAnswer(n).Pass? then STATUS_NO_CONTENT else STATUS_NOT_FOUND)
      else STATUS_METHOD_NOT_ALLOWED
  {
    ParseIdOfFormatted(ANSWERS_PREFIX, n);
    AnswerIdReplies(verb, ANSWERS_PREFIX + FormatInt(n), n, repo);
  }
}
