/**
  The handlers and the two routing closures run against the in-memory store.
  Each request is described by a pure function of the tables before it
  (`HandleQuestions`, `HandleAnswers`): the reply, which is the abstract reply
  of module `Handlers` with the store's outcomes plugged in, the JSON payload,
  and the tables after it. The methods below do what the Go handlers do, step
  by step, and are proved to match. The lemmas at the end are the service's
  end-to-end promises, stated over those functions.
*/
module Server {
  import opened Wrappers
  import opened GoStrings
  import opened StrConv
  import opened Router
  import opened Store
  import opened Handlers

  /** The fields of a request body that decoded; `None` stands for a malformed body. */
  datatype Fields = Fields(userId: string, text: string)

  /** The value a successful handler encodes as JSON. */
  datatype Payload =
    | NoPayload
    | QuestionPayload(question: Question)
    | QuestionListPayload(questions: map<int, Question>)
    | QuestionWithAnswersPayload(question: Question, answers: map<int, Answer>)
    | AnswerPayload(answer: Answer)

  datatype Response = Response(reply: Reply, payload: Payload)

  /** What a lookup in one table reports. */
  function Found<T>(table: map<int, T>, id: int): (o: Outcome)
    ensures o.Pass? <==> id in table
    ensures o.Fail? ==> o.error == RecordNotFound
  {
    if id in table then Pass else Fail(RecordNotFound)
  }

  /**
    What the in-memory store reports for each repository call: inserts and
    listing never fail, the other calls fail with not-found exactly when the
    row (for `CreateAnswer`, the question) is missing.
  */
  function StoreRepo(t: Tables): (r: Repo)
    ensures r.createQuestion == Pass && r.listQuestions == Pass
    ensures forall id :: r.getQuestion(id) == if id in t.questions then Pass else Fail(RecordNotFound)
    ensures forall id :: r.deleteQuestion(id) == if id in t.questions then Pass else Fail(RecordNotFound)
    ensures forall id :: r.createAnswer(id) == if id in t.questions then Pass else Fail(RecordNotFound)
    ensures forall id :: r.getAnswer(id) == if id in t.answers then Pass else Fail(RecordNotFound)
    ensures forall id :: r.deleteAnswer(id) == if id in t.answers then Pass else Fail(RecordNotFound)
  {
    var questions := t.questions;
    var answers := t.answers;
    Repo(Pass, Pass,
      id => Found(questions, id), id => Found(questions, id), id => Found(questions, id),
      id => Found(answers, id), id => Found(answers, id))
  }

  /**
    The JSON payload of one handler run on the given tables: there is one
    exactly when a handler other than the two deletes succeeds.
  */
  function HandlerPayload(h: Handler, path: string, body: Option<Fields>, t: Tables): (r: Payload)
    ensures r != NoPayload <==>
      h != DeleteQuestion && h != DeleteAnswer && HandlerReply(h, path, body.Some?, StoreRepo(t)).status < 300
    ensures h == ListQuestions ==> r == QuestionListPayload(t.questions)
    ensures h == CreateQuestion && r != NoPayload ==> r == QuestionPayload(Question(t.nextQuestionId, body.value.text))
    ensures h == CreateAnswer && r != NoPayload ==>
      var k := ParseAnswerPath(path);
      && k.Ok? && k.value in t.questions && body.Some?
      && r == AnswerPayload(Answer(t.nextAnswerId, k.value, body.value.userId, body.value.text))
    ensures h == GetAnswer && r != NoPayload ==>
      var k := ParseId(path, ANSWERS_PREFIX);
      k.Some? && k.value in t.answers && r == AnswerPayload(t.answers[k.value])
    ensures h == GetQuestion && r != NoPayload ==>
      var k := ParseId(path, QUESTIONS_PREFIX);
      && k.Some? && k.value in t.questions
      && r == QuestionWithAnswersPayload(t.questions[k.value], AnswersOf(t.answers, k.value))
  {
    match h
    case ListQuestions => QuestionListPayload(t.questions)
    case CreateQuestion =>
      if body.Some? then QuestionPayload(Question(t.nextQuestionId, body.value.text)) else NoPayload
    case GetQuestion =>
      var id := ParseId(path, QUESTIONS_PREFIX);
      if id.Some? && id.value in t.questions
      then QuestionWithAnswersPayload(t.questions[id.value], AnswersOf(t.answers, id.value))
      else NoPayload
    case CreateAnswer =>
      var qid := ParseAnswerPath(path);
      if qid.Ok? && body.Some? && qid.value in t.questions
      then AnswerPayload(Answer(t.nextAnswerId, qid.value, body.value.userId, body.value.text))
      else NoPayload
    case GetAnswer =>
      var id := ParseId(path, ANSWERS_PREFIX);
      if id.Some? && id.value in t.answers then AnswerPayload(t.answers[id.value]) else NoPayload
    case DeleteQuestion => NoPayload
    case DeleteAnswer => NoPayload
  }

  /** The tables after one handler run; they stay consistent. */
  function HandlerEffect(h: Handler, path: string, body: Option<Fields>, t: Tables): (r: Tables)
    ensures Consistent(t) ==> Consistent(r)
  {
    match h
    case CreateQuestion => if body.Some? then WithQuestion(t, body.value.text) else t
    case DeleteQuestion =>
      var id := ParseId(path, QUESTIONS_PREFIX);
      if id.Some? then WithoutQuestion(t, id.value) else t
    case CreateAnswer =>
      var qid := ParseAnswerPath(path);
      if qid.Ok? && body.Some? && qid.value in t.questions
      then WithAnswer(t, qid.value, body.value.userId, body.value.text)
      else t
    case DeleteAnswer =>
      var id := ParseId(path, ANSWERS_PREFIX);
      if id.Some? then WithoutAnswer(t, id.value) else t
    case ListQuestions => t
    case GetQuestion => t
    case GetAnswer => t
  }

  /**
    A routed request: the response and the tables after it. A request the
    closure answers by itself, and any request that fails, leaves the tables
    as they were; the reads change nothing either.
  */
  function HandleRoute(route: Route, path: string, body: Option<Fields>, t: Tables): (r: (Response, Tables))
    ensures r.0.reply == RouteReply(route, path, body.Some?, StoreRepo(t))
    ensures Consistent(t) ==> Consistent(r.1)
    ensures !route.Handle? ==> r.0.payload == NoPayload && r.1 == t
    ensures route in {Handle(ListQuestions), Handle(GetQuestion), Handle(GetAnswer)} ==> r.1 == t
    ensures Consistent(t) && r.0.reply.status >= STATUS_BAD_REQUEST ==> r.1 == t
  {
    var reply := RouteReply(route, path, body.Some?, StoreRepo(t));
    match route
    case Handle(h) => (Response(reply, HandlerPayload(h, path, body, t)), HandlerEffect(h, path, body, t))
    case _ => (Response(reply, NoPayload), t)
  }

  /** A request to the `/questions/` closure; a method other than GET, POST or DELETE is not found. */
  function HandleQuestions(verb: string, path: string, body: Option<Fields>, t: Tables): (r: (Response, Tables))
    ensures r.0.reply == QuestionsReply(verb, path, body.Some?, StoreRepo(t))
    ensures Consistent(t) ==> Consistent(r.1)
    ensures verb == METHOD_GET ==> r.1 == t
    ensures verb != METHOD_GET && verb != METHOD_POST && verb != METHOD_DELETE ==>
      r == (Response(Reply(STATUS_NOT_FOUND, "404 page not found"), NoPayload), t)
  {
    HandleRoute(RouteQuestions(verb, path), path, body, t)
  }

  /** A request to the `/answers/` closure (its handlers read no body); other methods get 405. */
  function HandleAnswers(verb: string, path: string, t: Tables): (r: (Response, Tables))
    ensures r.0.reply == AnswersReply(verb, path, StoreRepo(t))
    ensures Consistent(t) ==> Consistent(r.1)
    ensures verb == METHOD_GET ==> r.1 == t
    ensures verb != METHOD_GET && verb != METHOD_DELETE ==>
      r == (Response(Reply(STATUS_METHOD_NOT_ALLOWED, "method not allowed"), NoPayload), t)
  {
    HandleRoute(RouteAnswers(verb), path, None, t)
  }

  method ListQuestionsHandler(db: Database) returns (resp: Response)
    ensures resp == Response(ListQuestionsReply(Pass), QuestionListPayload(db.questions))
  {
    var qs := db.GetAllQuestions();
    resp := Response(Reply(STATUS_OK, ""), QuestionListPayload(qs));
  }

  method CreateQuestionHandler(db: Database, path: string, body: Option<Fields>) returns (resp: Response)
    requires db.Valid()
    modifies db
    ensures db.Valid()
    ensures (resp, db.Snapshot()) == HandleRoute(Handle(CreateQuestion), path, body, old(db.Snapshot()))
  {
    if body.None? {
      return Response(Reply(STATUS_BAD_REQUEST, "bad request"), NoPayload);
    }
    var q := db.CreateQuestion(body.value.text);
    resp := Response(Reply(STATUS_CREATED, ""), QuestionPayload(q));
  }

  method GetQuestionHandler(db: Database, path: string) returns (resp: Response)
    ensures resp == HandleRoute(Handle(GetQuestion), path, None, db.Snapshot()).0
  {
    var id := Atoi(TrimPrefix(path, QUESTIONS_PREFIX));
    if id.None? {
      return Response(Reply(STATUS_BAD_REQUEST, "bad id"), NoPayload);
    }
    var q := db.GetQuestionWithAnswers(id.value);
    if q.Err? {
      return Response(Reply(STATUS_NOT_FOUND, "not found"), NoPayload);
    }
    resp := Response(Reply(STATUS_OK, ""), QuestionWithAnswersPayload(q.value.0, q.value.1));
  }

  method DeleteQuestionHandler(db: Database, path: string) returns (resp: Response)
    requires db.Valid()
    modifies db
    ensures db.Valid()
    ensures (resp, db.Snapshot()) == HandleRoute(Handle(DeleteQuestion), path, None, old(db.Snapshot()))
  {
    var id := Atoi(TrimPrefix(path, QUESTIONS_PREFIX));
    if id.None? {
      return Response(Reply(STATUS_BAD_REQUEST, "bad id"), NoPayload);
    }
    var err := db.DeleteQuestion(id.value);
    if err.Some? {
      return Response(Reply(STATUS_NOT_FOUND, "not found"), NoPayload);
    }
    resp := Response(Reply(STATUS_NO_CONTENT, ""), NoPayload);
  }

  method CreateAnswerHandler(db: Database, path: string, body: Option<Fields>) returns (resp: Response)
    requires db.Valid()
    modifies db
    ensures db.Valid()
    ensures (resp, db.Snapshot()) == HandleRoute(Handle(CreateAnswer), path, body, old(db.Snapshot()))
  {
    var parts := Split(TrimPrefix(path, QUESTIONS_PREFIX), '/');
    if |parts| < 2 || parts[1] != "answers" {
      return Response(Reply(STATUS_BAD_REQUEST, "bad path"), NoPayload);
    }
    var id := Atoi(parts[0]);
    if id.None? {
      return Response(Reply(STATUS_BAD_REQUEST, "bad id"), NoPayload);
    }
    if body.None? {
      return Response(Reply(STATUS_BAD_REQUEST, "bad request"), NoPayload);
    }
    var a := db.CreateAnswer(id.value, body.value.userId, body.value.text);
    if a.Err? {
      return Response(Reply(STATUS_BAD_REQUEST, "question not found"), NoPayload);
    }
    resp := Response(Reply(STATUS_CREATED, ""), AnswerPayload(a.value));
  }

  method GetAnswerHandler(db: Database, path: string) returns (resp: Response)
    ensures resp == HandleRoute(Handle(GetAnswer), path, None, db.Snapshot()).0
  {
    var id := Atoi(TrimPrefix(path, ANSWERS_PREFIX));
    if id.None? {
      return Response(Reply(STATUS_BAD_REQUEST, "bad id"), NoPayload);
    }
    var a := db.GetAnswer(id.value);
    if a.Err? {
      return Response(Reply(STATUS_NOT_FOUND, "not found"), NoPayload);
    }
    resp := Response(Reply(STATUS_OK, ""), AnswerPayload(a.value));
  }

  method DeleteAnswerHandler(db: Database, path: string) returns (resp: Response)
    requires db.Valid()
    modifies db
    ensures db.Valid()
    ensures (resp, db.Snapshot()) == HandleRoute(Handle(DeleteAnswer), path, None, old(db.Snapshot()))
  {
    var id := Atoi(TrimPrefix(path, ANSWERS_PREFIX));
    if id.None? {
      return Response(Reply(STATUS_BAD_REQUEST, "bad id"), NoPayload);
    }
    var err := db.DeleteAnswer(id.value);
    if err.Some? {
      return Response(Reply(STATUS_NOT_FOUND, "not found"), NoPayload);
    }
    resp := Response(Reply(STATUS_NO_CONTENT, ""), NoPayload);
  }

  /** The `/questions/` closure: the nested-answer POST first, then the switch. */
  method ServeQuestions(db: Database, verb: string, path: string, body: Option<Fields>) returns (resp: Response)
    requires db.Valid()
    modifies db
    ensures db.Valid()
    ensures (resp, db.Snapshot()) == HandleQuestions(verb, path, body, old(db.Snapshot()))
  {
    if verb == METHOD_POST && HasSuffix(path, ANSWERS_SUFFIX) {
      resp := CreateAnswerHandler(db, path, body);
      return;
    }
    if verb == METHOD_GET && (path == "/questions/" || path == "/questions") {
      resp := ListQuestionsHandler(db);
    } else if verb == METHOD_POST && (path == "/questions/" || path == "/questions") {
      resp := CreateQuestionHandler(db, path, body);
    } else if verb == METHOD_GET {
      resp := GetQuestionHandler(db, path);
    } else if verb == METHOD_DELETE {
      resp := DeleteQuestionHandler(db, path);
    } else {
      resp := Response(Reply(STATUS_NOT_FOUND, "404 page not found"), NoPayload);
    }
  }

  /** The `/answers/` closure. */
  method ServeAnswers(db: Database, verb: string, path: string) returns (resp: Response)
    requires db.Valid()
    modifies db
    ensures db.Valid()
    ensures (resp, db.Snapshot()) == HandleAnswers(verb, path, old(db.Snapshot()))
  {
    if verb == METHOD_GET {
      resp := GetAnswerHandler(db, path);
    } else if verb == METHOD_DELETE {
      resp := DeleteAnswerHandler(db, path);
    } else {
      resp := Response(Reply(STATUS_METHOD_NOT_ALLOWED, "method not allowed"), NoPayload);
    }
  }

  /**
    A request that fails (status 400 or above) leaves both tables as they were.
    This holds of the in-memory store only: there a delete fails exactly when
    no row matched. In Go, `DeleteQuestion` and `DeleteAnswer` (testing.go:81-87,
    105-111) return the database's error even after rows went, so a 404 from a
    real database does not by itself rule out a change.
  */
  lemma FailedRequestChangesNothing(route: Route, path: string, body: Option<Fields>, t: Tables)
    requires Consistent(t)
    requires HandleRoute(route, path, body, t).0.reply.status >= STATUS_BAD_REQUEST
    ensures HandleRoute(route, path, body, t).1 == t
  {
  }

  /**
    A question created with POST can be fetched by the id it was given: the
    fetch answers 200 with the same text and, as yet, no answers.
  */
  lemma CreateThenFetch(t: Tables, body: Fields)
    requires Consistent(t) && t.nextQuestionId <= MAX_INT64
    ensures var (created, t1) := HandleQuestions(METHOD_POST, QUESTIONS_PREFIX, Some(body), t);
            var (fetched, t2) := HandleQuestions(METHOD_GET, QUESTIONS_PREFIX + FormatInt(created.payload.question.id), None, t1);
            && created.reply.status == STATUS_CREATED
            && created.payload == QuestionPayload(Question(t.nextQuestionId, body.text))
            && fetched.reply.status == STATUS_OK
            && fetched.payload == QuestionWithAnswersPayload(Question(t.nextQuestionId, body.text), map[])
            && t2 == t1
  {
    var id := t.nextQuestionId;
    var t1 := WithQuestion(t, body.text);
    var path := QUESTIONS_PREFIX + FormatInt(id);
    ParseIdOfFormatted(QUESTIONS_PREFIX, id);
    assert !IsCollectionPath(path) by {
      assert path[..|QUESTIONS_PREFIX|] == QUESTIONS_PREFIX;
    }
    assert AnswersOf(t1.answers, id) == map[] by {
      forall a | a in t1.answers ensures t1.answers[a].questionId != id {
        assert t.answers[a].questionId in t.questions;
      }
    }
  }

  /**
    An answer posted under a stored question is created with the next answer
    id and that question's id, and can then be fetched by its own id.
  */
  lemma AnswerThenFetch(t: Tables, questionId: int, body: Fields)
    requires Consistent(t) && questionId in t.questions
    requires questionId <= MAX_INT64 && t.nextAnswerId <= MAX_INT64
    ensures var path := QUESTIONS_PREFIX + FormatInt(questionId) + ANSWERS_SUFFIX;
            var (created, t1) := HandleQuestions(METHOD_POST, path, Some(body), t);
            var fetched := HandleAnswers(METHOD_GET, ANSWERS_PREFIX + FormatInt(t.nextAnswerId), t1).0;
            && created.reply.status == STATUS_CREATED
            && created.payload == AnswerPayload(Answer(t.nextAnswerId, questionId, body.userId, body.text))
            && fetched == Response(Reply(STATUS_OK, ""), created.payload)
  {
    var prefix := QUESTIONS_PREFIX + FormatInt(questionId);
    QuestionPathReplies(questionId, true, StoreRepo(t));
    NestedAnswersPathRouting(prefix);
    AtoiFormatInt(questionId);
    AnswerPathAccepts(FormatInt(questionId), []);
    assert QUESTIONS_PREFIX + FormatInt(questionId) + ANSWERS_SUFFIX + [] == prefix + ANSWERS_SUFFIX;
    ParseIdOfFormatted(ANSWERS_PREFIX, t.nextAnswerId);
  }

  /**
    Any stored question or answer can be fetched by its id: the fetch answers
    200 with exactly that row (for a question, with every answer stored under
    it) and changes nothing.
  */
  lemma FetchStored(t: Tables, n: int)
    requires Consistent(t)
    requires MIN_INT64 <= n <= MAX_INT64
    ensures n in t.questions ==>
      HandleQuestions(METHOD_GET, QUESTIONS_PREFIX + FormatInt(n), None, t) ==
        (Response(Reply(STATUS_OK, ""), QuestionWithAnswersPayload(t.questions[n], AnswersOf(t.answers, n))), t)
    ensures n in t.answers ==>
      HandleAnswers(METHOD_GET, ANSWERS_PREFIX + FormatInt(n), t) ==
        (Response(Reply(STATUS_OK, ""), AnswerPayload(t.answers[n])), t)
  {
    var path := QUESTIONS_PREFIX + FormatInt(n);
    ParseIdOfFormatted(QUESTIONS_PREFIX, n);
    ParseIdOfFormatted(ANSWERS_PREFIX, n);
    assert !IsCollectionPath(path) by {
      assert path[..|QUESTIONS_PREFIX|] == QUESTIONS_PREFIX;
    }
  }

  /** Listing after a create returns one more question than before. */
  lemma ListAfterCreate(t: Tables, body: Fields)
    requires Consistent(t)
    ensures var t1 := HandleQuestions(METHOD_POST, QUESTIONS_PREFIX, Some(body), t).1;
            var listed := HandleQuestions(METHOD_GET, QUESTIONS_PREFIX, None, t1).0;
            listed.reply.status == STATUS_OK &&
            |listed.payload.questions| == |t.questions| + 1
  {
  }

  /** The tables after a sequence of `POST /questions/` requests, one per body. */
  function PostQuestions(t: Tables, bodies: seq<Fields>): (r: Tables)
    ensures Consistent(t) ==> Consistent(r)
    decreases |bodies|
  {
    if |bodies| == 0 then t
    else PostQuestions(HandleQuestions(METHOD_POST, QUESTIONS_PREFIX, Some(bodies[0]), t).1, bodies[1..])
  }

  /**
    Every create in a sequence of them adds one question, each under the next
    id, and no answer is touched.
  */
  lemma {:induction false} ListAfterCreates(t: Tables, bodies: seq<Fields>)
    requires Consistent(t)
    ensures var r := PostQuestions(t, bodies);
            && |r.questions| == |t.questions| + |bodies|
            && r.nextQuestionId == t.nextQuestionId + |bodies|
            && r.answers == t.answers
    decreases |bodies|
  {
    if |bodies| > 0 {
      var t1 := HandleQuestions(METHOD_POST, QUESTIONS_PREFIX, Some(bodies[0]), t).1;
      ListAfterCreate(t, bodies[0]);
      ListAfterCreates(t1, bodies[1..]);
    }
  }

  /** Starting from the empty tables a new database holds, listing after N creates returns N questions. */
  lemma ListAfterCreatesFromEmpty(bodies: seq<Fields>)
    ensures var t := PostQuestions(Tables(map[], map[], 1, 1), bodies);
            var listed := HandleQuestions(METHOD_GET, QUESTIONS_PREFIX, None, t).0;
            listed.reply.status == STATUS_OK && |listed.payload.questions| == |bodies|
  {
    ListAfterCreates(Tables(map[], map[], 1, 1), bodies);
  }

  /**
    Deleting a question deletes the answers created under it: a later fetch of
    any of them answers 404.
  */
  lemma DeleteCascades(t: Tables, questionId: int, answerId: int)
    requires Consistent(t)
    requires answerId in t.answers && t.answers[answerId].questionId == questionId
    requires questionId <= MAX_INT64 && answerId <= MAX_INT64
    ensures var (deleted, t1) := HandleQuestions(METHOD_DELETE, QUESTIONS_PREFIX + FormatInt(questionId), None, t);
            && deleted.reply.status == STATUS_NO_CONTENT
            && questionId !in t1.questions && answerId !in t1.answers
            && HandleAnswers(METHOD_GET, ANSWERS_PREFIX + FormatInt(answerId), t1).0.reply.status == STATUS_NOT_FOUND
  {
    QuestionPathReplies(questionId, false, StoreRepo(t));
    ParseIdOfFormatted(QUESTIONS_PREFIX, questionId);
    var t1 := WithoutQuestion(t, questionId);
    AnswerPathReplies(METHOD_GET, answerId, StoreRepo(t1));
  }

  /** An answer to a question that does not exist is refused with 400 and stores nothing. */
  lemma AnswerToMissingQuestion(t: Tables, n: int, body: Option<Fields>)
    requires Consistent(t)
    requires MIN_INT64 <= n <= MAX_INT64 && n !in t.questions
    ensures var (resp, t1) := HandleQuestions(METHOD_POST, QUESTIONS_PREFIX + FormatInt(n) + ANSWERS_SUFFIX, body, t);
            resp.reply.status == STATUS_BAD_REQUEST && t1 == t
  {
    QuestionPathReplies(n, body.Some?, StoreRepo(t));
    var path := QUESTIONS_PREFIX + FormatInt(n) + ANSWERS_SUFFIX;
    NestedAnswersPathRouting(QUESTIONS_PREFIX + FormatInt(n));
    FailedRequestChangesNothing(Handle(CreateAnswer), path, body, t);
  }

  /** Fetching or deleting an id that is not stored answers 404 and changes nothing. */
  lemma MissingIdsAreNotFound(t: Tables, n: int)
    requires Consistent(t)
    requires MIN_INT64 <= n <= MAX_INT64
    ensures n !in t.questions ==>
      && HandleQuestions(METHOD_GET, QUESTIONS_PREFIX + FormatInt(n), None, t).0.reply.status == STATUS_NOT_FOUND
      && HandleQuestions(METHOD_DELETE, QUESTIONS_PREFIX + FormatInt(n), None, t)
         == (Response(Reply(STATUS_NOT_FOUND, "not found"), NoPayload), t)
    ensures n !in t.answers ==>
      && HandleAnswers(METHOD_GET, ANSWERS_PREFIX + FormatInt(n), t).0.reply.status == STATUS_NOT_FOUND
      && HandleAnswers(METHOD_DELETE, ANSWERS_PREFIX + FormatInt(n), t)
         == (Response(Reply(STATUS_NOT_FOUND, "not found"), NoPayload), t)
  {
    QuestionPathReplies(n, false, StoreRepo(t));
    ParseIdOfFormatted(QUESTIONS_PREFIX, n);
    ParseIdOfFormatted(ANSWERS_PREFIX, n);
  }
}
