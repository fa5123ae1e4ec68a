/**
 * The per-client session record and the three endpoints that act on it
 * (app.py): `submit-info`, `submit-answer` and `calculate-score`.
 */
module SessionState {
  import opened Wrappers
  import opened Scoring

  /**
   * A demographic field as stored: whatever JSON scalar the client sent
   * (an integer, a non-integer number, a string or a boolean), with `Null`
   * for a key that was missing (`dict.get` gives `None`).
   */
  datatype Value = Null | Num(n: int) | Real(r: real) | Text(s: string) | Flag(b: bool)

  /** The reply of `calculate-score`. */
  datatype ScoreReply =
    | NoAnswersFound
    | Scored(score: int, stressLevel: string, advice: string, age: Value, grade: Value, strand: Value)
  {
    /** HTTP status: 400 for the missing list, 200 otherwise. */
    function Status(): (code: int)
      ensures code == 400 <==> NoAnswersFound?
      ensures code == 200 <==> Scored?
    {
      if NoAnswersFound? then 400 else 200
    }
  }

  /** The entries recorded so far; an absent list holds none. */
  function Recorded(answers: Option<seq<Answer>>): seq<Answer>
  {
    match answers
    case None => []
    case Some(s) => s
  }

  /**
   * One client's session. `answers` is `None` while the `'answers'` key is
   * absent from the session and `Some(list)` once it exists.
   */
  class Session {
    var age: Value
    var grade: Value
    var strand: Value
    var answers: Option<seq<Answer>>

    /** A fresh session holds no keys. */
    constructor ()
      ensures age == Null && grade == Null && strand == Null && answers == None
    {
      age, grade, strand := Null, Null, Null;
      answers := None;
    }

    /**
     * `POST /api/submit-info`: stores the three fields as given and starts a
     * new, empty answer list, discarding any earlier answers.
     */
    method SubmitInfo(newAge: Value, newGrade: Value, newStrand: Value)
      modifies this
      ensures age == newAge && grade == newGrade && strand == newStrand
      ensures answers == Some([])
    {
      age := newAge;
      grade := newGrade;
      strand := newStrand;
      answers := Some([]);
    }

    /**
     * `POST /api/submit-answer`: creates the list when it is absent, then
     * appends one entry. No range check and no duplicate check; the
     * demographic fields are untouched.
     */
    method SubmitAnswer(questionIndex: int, answer: int)
      modifies this`answers
      ensures answers == Some(Recorded(old(answers)) + [Answer(questionIndex, answer)])
      ensures old(answers) == None ==> answers == Some([Answer(questionIndex, answer)])
      ensures age == old(age) && grade == old(grade) && strand == old(strand)
    {
      if answers == None {
        answers := Some([]);
      }
      assert Recorded(old(answers)) == answers.value;
      assert old(answers) == None ==> answers.value + [Answer(questionIndex, answer)] == [Answer(questionIndex, answer)];
      answers := Some(answers.value + [Answer(questionIndex, answer)]);
    }

    /**
     * `POST /api/calculate-score`: fails only when the list is absent (an
     * empty list scores 0); otherwise sums every entry in a loop, classifies
     * the sum and echoes the demographic fields. The session is not changed.
     */
    method CalculateScore() returns (r: ScoreReply)
      ensures r.NoAnswersFound? <==> answers == None
      ensures answers != None ==>
        r.Scored? && r.score == Score(answers.value) &&
        r.stressLevel == Classify(r.score).Name() &&
        r.advice == Classify(r.score).Advice()
      ensures r.Scored? ==> r.age == age && r.grade == grade && r.strand == strand
    {
      if answers == None {
        return NoAnswersFound;
      }
      var items := answers.value;
      var score := 0;
      var i := 0;
      while i < |items|
        invariant 0 <= i <= |items|
        invariant score == Score(items[..i])
      {
        var question := items[i].question;
        var value := items[i].answer;
        if question in ReverseIndices {
          value := 4 - value;
        }
        score := score + value;
        assert items[..i + 1][..i] == items[..i];
        i := i + 1;
      }
      assert items[..i] == items;
      var level := Classify(score);
      r := Scored(score, level.Name(), level.Advice(), age, grade, strand);
    }
  }

  /**
   * The browser's happy path through the three endpoints: submit the
   * demographics, answer question `i` with `values[i]` for each `i` in turn,
   * then ask for the score. The result is the score of exactly those
   * answers, whatever the session held before.
   */
  method Questionnaire(s: Session, age: Value, grade: Value, strand: Value, values: seq<int>)
    returns (r: ScoreReply)
    modifies s
    ensures s.answers.Some? && |s.answers.value| == |values|
    ensures forall i :: 0 <= i < |values| ==> s.answers.value[i] == Answer(i, values[i])
    ensures r.Scored? && r.score == Score(s.answers.value)
    ensures r.stressLevel == Classify(r.score).Name()
    ensures r.age == age && r.grade == grade && r.strand == strand
  {
    s.SubmitInfo(age, grade, strand);
    var i := 0;
    while i < |values|
      invariant 0 <= i <= |values|
      invariant s.age == age && s.grade == grade && s.strand == strand
      invariant s.answers.Some? && |s.answers.value| == i
      invariant forall j :: 0 <= j < i ==> s.answers.value[j] == Answer(j, values[j])
    {
      s.SubmitAnswer(i, values[i]);
      i := i + 1;
    }
    r := s.CalculateScore();
  }

  /**
   * Right after `submit-info` the list is present but empty, so a score
   * request succeeds with 0 and the Low band rather than failing.
   */
  method InfoThenScore(s: Session, age: Value, grade: Value, strand: Value) returns (r: ScoreReply)
    modifies s
    ensures r == Scored(0, "Low Stress", Low.Advice(), age, grade, strand)
  {
    s.SubmitInfo(age, grade, strand);
    r := s.CalculateScore();
  }
}
