/**
  The two closures registered with `http.HandleFunc` in `main`: one for the
  `/questions/` subtree, one for the `/answers/` subtree. Each picks one of the
  seven handlers, or answers 404 / 405 itself, from the request method and
  the URL path alone.
*/
module Router {
  import opened GoStrings

  const METHOD_GET := "GET"
  const METHOD_POST := "POST"
  const METHOD_DELETE := "DELETE"

  /** The suffix that marks a nested "create an answer" path. */
  const ANSWERS_SUFFIX := "/answers"

  datatype Handler =
    | ListQuestions
    | CreateQuestion
    | GetQuestion
    | DeleteQuestion
    | CreateAnswer
    | GetAnswer
    | DeleteAnswer

  /** What a closure does with a request: run a handler, or reply 404 / 405 itself. */
  datatype Route = Handle(handler: Handler) | NotFound | MethodNotAllowed

  /** The two spellings of the question collection that the closure compares against. */
  predicate IsCollectionPath(path: string) {
    path == "/questions/" || path == "/questions"
  }

  /** Neither spelling of the collection ends in `/answers`. */
  lemma CollectionIsNotNested(path: string)
    requires IsCollectionPath(path)
    ensures !HasSuffix(path, ANSWERS_SUFFIX)
  {
  }

  /**
    The `/questions/` closure. A POST whose path ends in `/answers` is checked
    first and always creates an answer; then the collection paths list (GET) or
    create (POST) questions, any other GET fetches one question, any DELETE
    deletes one, and everything else is 404.
  */
  function RouteQuestions(verb: string, path: string): (r: Route)
    ensures r != MethodNotAllowed && r != Handle(GetAnswer) && r != Handle(DeleteAnswer)
    ensures r == Handle(CreateAnswer) <==> verb == METHOD_POST && HasSuffix(path, ANSWERS_SUFFIX)
    ensures r == Handle(ListQuestions) <==> verb == METHOD_GET && IsCollectionPath(path)
    ensures r == Handle(CreateQuestion) <==> verb == METHOD_POST && IsCollectionPath(path)
    ensures r == Handle(GetQuestion) <==> verb == METHOD_GET && !IsCollectionPath(path)
    ensures r == Handle(DeleteQuestion) <==> verb == METHOD_DELETE
    ensures r == NotFound <==>
      (verb != METHOD_GET && verb != METHOD_POST && verb != METHOD_DELETE) ||
      (verb == METHOD_POST && !IsCollectionPath(path) && !HasSuffix(path, ANSWERS_SUFFIX))
  {
    assert IsCollectionPath(path) ==> !HasSuffix(path, ANSWERS_SUFFIX) by {
      if IsCollectionPath(path) { CollectionIsNotNested(path); }
    }
    if verb == METHOD_POST && HasSuffix(path, ANSWERS_SUFFIX) then Handle(CreateAnswer)
    else if verb == METHOD_GET && IsCollectionPath(path) then Handle(ListQuestions)
    else if verb == METHOD_POST && IsCollectionPath(path) then Handle(CreateQuestion)
    else if verb == METHOD_GET then Handle(GetQuestion)
    else if verb == METHOD_DELETE then Handle(DeleteQuestion)
    else NotFound
  }

  /** The `/answers/` closure: GET fetches, DELETE deletes, any other method is 405. */
  function RouteAnswers(verb: string): (r: Route)
    ensures r == Handle(GetAnswer) <==> verb == METHOD_GET
    ensures r == Handle(DeleteAnswer) <==> verb == METHOD_DELETE
    ensures r == MethodNotAllowed <==> verb != METHOD_GET && verb != METHOD_DELETE
    ensures r.Handle? || r == MethodNotAllowed
  {
    if verb == METHOD_GET then Handle(GetAnswer)
    else if verb == METHOD_DELETE then Handle(DeleteAnswer)
    else MethodNotAllowed
  }

  /**
    The order matters: a POST to a nested answers path creates an answer
    whatever precedes the suffix, even text that is not an id, while the same
    path under GET or DELETE reaches the single-question handlers.
  */
  lemma NestedAnswersPathRouting(prefix: string)
    ensures RouteQuestions(METHOD_POST, prefix + ANSWERS_SUFFIX) == Handle(CreateAnswer)
    ensures RouteQuestions(METHOD_GET, prefix + ANSWERS_SUFFIX) == Handle(GetQuestion)
    ensures RouteQuestions(METHOD_DELETE, prefix + ANSWERS_SUFFIX) == Handle(DeleteQuestion)
  {
  }
}
