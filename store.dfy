/**
  The repository layer over an in-memory stand-in for the two database tables.
  The tables are maps from id to row; ids come from per-table counters that
  start at 1 (the database's auto-increment), and deleting a question removes
  its answers (the foreign key's cascade). Both are behaviour of the database,
  assumed here rather than derived. The code-level rules modelled are: a delete
  reports not-found when no row was affected, and creating an answer looks the
  question up first and inserts nothing when that fails.
*/
module Store {
  import opened Wrappers

  datatype Question = Question(id: int, text: string)

  datatype Answer = Answer(id: int, questionId: int, userId: string, text: string)

  /** `gorm.ErrRecordNotFound`, or any other error the database reports. */
  datatype RepoError = RecordNotFound | StorageFailure

  /** What a repository call reports: a nil error or an error. */
  datatype Outcome = Pass | Fail(error: RepoError)

  /** What `DB.Delete` hands back: the number of rows affected and its error. */
  datatype DeleteResult = DeleteResult(rowsAffected: nat, error: Option<RepoError>)

  /**
    The error `DeleteQuestion` and `DeleteAnswer` return: not-found whenever no
    row was affected, even when the database also reported an error, and
    otherwise the database's own error unchanged.
  */
  function DeleteError(res: DeleteResult): (err: Option<RepoError>)
    ensures err.None? <==> res.rowsAffected > 0 && res.error.None?
    ensures res.rowsAffected == 0 ==> err == Some(RecordNotFound)
    ensures res.rowsAffected > 0 ==> err == res.error
  {
    if res.rowsAffected == 0 then Some(RecordNotFound) else res.error
  }

  /** The answers that belong to one question (what `Preload("Answers")` loads). */
  function AnswersOf(answers: map<int, Answer>, questionId: int): (r: map<int, Answer>)
    ensures forall id :: id in r <==> id in answers && answers[id].questionId == questionId
    ensures forall id :: id in r ==> r[id] == answers[id]
  {
    map id | id in answers && answers[id].questionId == questionId :: answers[id]
  }

  /** The answers left after a question's deletion cascades. */
  function WithoutAnswersOf(answers: map<int, Answer>, questionId: int): (r: map<int, Answer>)
    ensures forall id :: id in r <==> id in answers && answers[id].questionId != questionId
    ensures forall id :: id in r ==> r[id] == answers[id]
  {
    map id | id in answers && answers[id].questionId != questionId :: answers[id]
  }

  /** The two tables and the next id each one will issue. */
  datatype Tables = Tables(
    questions: map<int, Question>,
    answers: map<int, Answer>,
    nextQuestionId: int,
    nextAnswerId: int)

  /**
    Every row is stored under its own id, ids are positive and below the next
    id to be issued, and every answer refers to a stored question.
  */
  ghost predicate Consistent(t: Tables) {
    && 0 < t.nextQuestionId
    && 0 < t.nextAnswerId
    && (forall id :: id in t.questions ==> t.questions[id].id == id && 0 < id < t.nextQuestionId)
    && (forall id :: id in t.answers ==>
          t.answers[id].id == id && 0 < id < t.nextAnswerId && t.answers[id].questionId in t.questions)
  }

  /** The tables after inserting a question, which takes the next question id. */
  function WithQuestion(t: Tables, text: string): (r: Tables)
    ensures Consistent(t) ==> Consistent(r)
    ensures Consistent(t) ==> t.nextQuestionId !in t.questions && |r.questions| == |t.questions| + 1
    ensures t.nextQuestionId in r.questions && r.questions[t.nextQuestionId] == Question(t.nextQuestionId, text)
    ensures r.questions.Keys == t.questions.Keys + {t.nextQuestionId}
    ensures Consistent(t) ==> forall id :: id in t.questions ==> r.questions[id] == t.questions[id]
    ensures r.answers == t.answers
    ensures r.nextQuestionId == t.nextQuestionId + 1 && r.nextAnswerId == t.nextAnswerId
  {
    var q := Question(t.nextQuestionId, text);
    t.(questions := t.questions[q.id := q], nextQuestionId := t.nextQuestionId + 1)
  }

  /** The tables after deleting a question; its answers go with it. */
  function WithoutQuestion(t: Tables, id: int): (r: Tables)
    ensures Consistent(t) ==> Consistent(r)
    ensures id !in r.questions && forall a :: a in r.answers ==> r.answers[a].questionId != id
    ensures Consistent(t) && id !in t.questions ==> r == t
    ensures r.questions.Keys == t.questions.Keys - {id}
    ensures forall q :: q in r.questions ==> r.questions[q] == t.questions[q]
    ensures r.answers == WithoutAnswersOf(t.answers, id)
    ensures r.nextQuestionId == t.nextQuestionId && r.nextAnswerId == t.nextAnswerId
  {
    var r := t.(questions := t.questions - {id}, answers := WithoutAnswersOf(t.answers, id));
    assert Consistent(t) && id !in t.questions ==> r == t by {
      if Consistent(t) && id !in t.questions {
        forall a | a in t.answers ensures t.answers[a].questionId != id {
          assert t.answers[a].questionId in t.questions;
        }
        assert r.answers.Keys == t.answers.Keys;
      }
    }
    r
  }

  /** The tables after inserting an answer to a stored question, which takes the next answer id. */
  function WithAnswer(t: Tables, questionId: int, userId: string, text: string): (r: Tables)
    requires questionId in t.questions
    ensures Consistent(t) ==> Consistent(r) && t.nextAnswerId !in t.answers
    ensures t.nextAnswerId in r.answers && r.answers[t.nextAnswerId] == Answer(t.nextAnswerId, questionId, userId, text)
    ensures r.answers.Keys == t.answers.Keys + {t.nextAnswerId}
    ensures Consistent(t) ==> forall a :: a in t.answers ==> r.answers[a] == t.answers[a]
    ensures r.questions == t.questions
    ensures r.nextQuestionId == t.nextQuestionId && r.nextAnswerId == t.nextAnswerId + 1
  {
    var a := Answer(t.nextAnswerId, questionId, userId, text);
    t.(answers := t.answers[a.id := a], nextAnswerId := t.nextAnswerId + 1)
  }

  /** The tables after deleting an answer. */
  function WithoutAnswer(t: Tables, id: int): (r: Tables)
    ensures Consistent(t) ==> Consistent(r)
    ensures id !in r.answers && r.questions == t.questions
    ensures id !in t.answers ==> r == t
    ensures r.answers.Keys == t.answers.Keys - {id}
    ensures forall a :: a in r.answers ==> r.answers[a] == t.answers[a]
    ensures r.nextQuestionId == t.nextQuestionId && r.nextAnswerId == t.nextAnswerId
  {
    var r := t.(answers := t.answers - {id});
    assert id !in t.answers ==> r.answers == t.answers;
    r
  }

  /**
    The database behind the global `DB` handle, as two tables that the
    repository functions update in place.
  */
  class Database {
    var questions: map<int, Question>
    var answers: map<int, Answer>
    var nextQuestionId: int
    var nextAnswerId: int

    function Snapshot(): Tables
      reads this
    {
      Tables(questions, answers, nextQuestionId, nextAnswerId)
    }

    ghost predicate Valid()
      reads this
    {
      Consistent(Snapshot())
    }

    /** Two empty tables whose ids start at 1. */
    constructor ()
      ensures Valid()
      ensures Snapshot() == Tables(map[], map[], 1, 1)
    {
      questions := map[];
      answers := map[];
      nextQuestionId := 1;
      nextAnswerId := 1;
    }

    /** `CreateQuestion`: inserts a question under a fresh id and returns it. */
    method CreateQuestion(text: string) returns (q: Question)
      requires Valid()
      modifies this
      ensures Valid()
      ensures q == Question(old(nextQuestionId), text) && q.id !in old(questions)
      ensures Snapshot() == WithQuestion(old(Snapshot()), text)
    {
      q := Question(nextQuestionId, text);
      questions := questions[q.id := q];
      nextQuestionId := nextQuestionId + 1;
    }

    /** `GetAllQuestions`: every stored question, without answers. */
    method GetAllQuestions() returns (qs: map<int, Question>)
      ensures qs == questions
    {
      qs := questions;
    }

    /** `GetQuestionWithAnswers`: one question and its answers, or not-found. */
    method GetQuestionWithAnswers(id: int) returns (r: Result<(Question, map<int, Answer>), RepoError>)
      ensures r.Ok? <==> id in questions
      ensures r.Err? ==> r.error == RecordNotFound
      ensures r.Ok? ==> r.value.0 == questions[id] && r.value.1 == AnswersOf(answers, id)
    {
      if id in questions {
        r := Ok((questions[id], AnswersOf(answers, id)));
      } else {
        r := Err(RecordNotFound);
      }
    }

    /**
      `DeleteQuestion`: removes the question and, by the cascade, its answers;
      not-found when no row was affected, and then nothing changes.
    */
    method DeleteQuestion(id: int) returns (err: Option<RepoError>)
      requires Valid()
      modifies this
      ensures Valid()
      ensures err.None? <==> id in old(questions)
      ensures err.Some? ==> err.value == RecordNotFound && Snapshot() == old(Snapshot())
      ensures Snapshot() == WithoutQuestion(old(Snapshot()), id)
    {
      ghost var before := Snapshot();
      var rows := if id in questions then 1 else 0;
      questions := questions - {id};
      answers := WithoutAnswersOf(answers, id);
      err := DeleteError(DeleteResult(rows, None));
      assert Snapshot() == WithoutQuestion(before, id);
    }

    /**
      `CreateAnswer`: looks the question up first; when it is missing, returns
      that error and inserts nothing; otherwise inserts the answer under a
      fresh id and returns it.
    */
    method CreateAnswer(questionId: int, userId: string, text: string) returns (r: Result<Answer, RepoError>)
      requires Valid()
      modifies this
      ensures Valid()
      ensures r.Ok? <==> questionId in old(questions)
      ensures r.Err? ==> r.error == RecordNotFound && Snapshot() == old(Snapshot())
      ensures r.Ok? ==> r.value == Answer(old(nextAnswerId), questionId, userId, text)
      ensures r.Ok? ==> r.value.id !in old(answers)
      ensures r.Ok? ==> Snapshot() == WithAnswer(old(Snapshot()), questionId, userId, text)
    {
      if questionId !in questions {
        return Err(RecordNotFound);
      }
      var a := Answer(nextAnswerId, questionId, userId, text);
      answers := answers[a.id := a];
      nextAnswerId := nextAnswerId + 1;
      r := Ok(a);
    }

    /** `GetAnswer`: one answer, or not-found. */
    method GetAnswer(id: int) returns (r: Result<Answer, RepoError>)
      ensures r.Ok? <==> id in answers
      ensures r.Ok? ==> r.value == answers[id]
      ensures r.Err? ==> r.error == RecordNotFound
    {
      if id in answers {
        r := Ok(answers[id]);
      } else {
        r := Err(RecordNotFound);
      }
    }

    /** `DeleteAnswer`: removes one answer; not-found when no row was affected, and then nothing changes. */
    method DeleteAnswer(id: int) returns (err: Option<RepoError>)
      requires Valid()
      modifies this
      ensures Valid()
      ensures err.None? <==> id in old(answers)
      ensures err.Some? ==> err.value == RecordNotFound && Snapshot() == old(Snapshot())
      ensures Snapshot() == WithoutAnswer(old(Snapshot()), id)
    {
      var rows := if id in answers then 1 else 0;
      answers := answers - {id};
      err := DeleteError(DeleteResult(rows, None));
    }
  }
}
