/**
 * The question bank of the perceived-stress questionnaire and the
 * `GET /api/get-question?num=N` lookup over it (app.py).
 */
module Questions {
  import opened Wrappers

  /** The ten questionnaire items, in the order they are asked. */
  const Bank: seq<string> := [
    "1. In the last month, how often have you been upset because of something that happened unexpectedly?",
    "2. In the last month, how often have you felt that you were unable to control the important things in your life?",
    "3. In the last month, how often have you felt nervous and 'stressed'?",
    "4. In the last month, how often have you felt confident about your ability to handle your personal problems?",
    "5. In the last month, how often have you felt that things were going your way?",
    "6. In the last month, how often have you found that you could not cope with all the things you had to do?",
    "7. In the last month, how often have you been able to control irritations in your life?",
    "8. In the last month, how often have you felt that you were on top of things?",
    "9. In the last month, how often have you been angered because of things that were outside of your control?",
    "10. In the last month, how often have you felt difficulties were piling up so high that you could not overcome them?"
  ]

  /** `len(QUESTIONS)`. */
  const Total: int := |Bank|

  /**
   * What the lookup answers: a question (HTTP 200), the "No more
   * questions" error (HTTP 404), or the `IndexError` that escapes the
   * handler for indices below `-Total` (an HTTP 500 from the framework).
   */
  datatype QuestionReply =
    | Question(text: string, number: int, total: int)
    | NoMoreQuestions
    | ServerError
  {
    function Status(): (code: int)
      ensures code == 200 <==> Question?
      ensures code == 404 <==> NoMoreQuestions?
      ensures code == 500 <==> ServerError?
    {
      match this
      case Question(_, _, _) => 200
      case NoMoreQuestions => 404
      case ServerError => 500
    }
  }

  /**
   * Python list subscription `s[i]`: a negative index counts from the end,
   * and an index outside `-|s| .. |s|-1` raises (None here).
   */
  function PyIndex<T>(s: seq<T>, i: int): (r: Option<T>)
    ensures r.Some? <==> -|s| <= i < |s|
    ensures 0 <= i < |s| ==> r == Some(s[i])
  {
    if 0 <= i < |s| then Some(s[i])
    else if -|s| <= i < 0 then Some(s[|s| + i])
    else None
  }

  /** A negative index names the same element as the index `|s|` higher. */
  lemma PyIndexWraps<T>(s: seq<T>, i: int)
    requires 0 <= i < |s|
    ensures PyIndex(s, i - |s|) == PyIndex(s, i) == Some(s[i])
  {
  }

  /**
   * The handler: only an upper-bound check, then the Python subscription,
   * so `-Total <= n < 0` silently wraps and `n < -Total` raises.
   */
  function GetQuestion(n: int): (r: QuestionReply)
    ensures 0 <= n < Total ==> r == Question(Bank[n], n + 1, Total)
    ensures -Total <= n < 0 ==> r == Question(Bank[n + Total], n + 1, Total)
    ensures r.NoMoreQuestions? <==> n >= Total
    ensures r.ServerError? <==> n < -Total
    ensures r.Question? ==> r.text in Bank && r.total == 10 && r.number <= r.total
  {
    if n < |Bank| then
      match PyIndex(Bank, n)
      case Some(q) => Question(q, n + 1, |Bank|)
      case None => ServerError
    else
      NoMoreQuestions
  }

  /**
   * Asking for `num = 0, 1, ..., Total - 1` in turn, as the browser client
   * does, walks the whole bank in order, numbered 1 to 10, and the next
   * request is the 404.
   */
  lemma {:induction false} SequentialWalk(k: nat)
    requires k <= Total
    ensures forall n :: 0 <= n < k ==> GetQuestion(n).Question? && GetQuestion(n).number == n + 1
    ensures seq(k, n requires 0 <= n < k => GetQuestion(n).text) == Bank[..k]
    ensures GetQuestion(Total).Status() == 404
  {
    if k > 0 {
      SequentialWalk(k - 1);
      assert GetQuestion(k - 1).text == Bank[k - 1];
    }
  }
}
