/**
 * The scoring rule of `POST /api/calculate-score` (app.py): reverse-scored
 * items, the running sum over every recorded answer, and the three stress
 * bands with their advice.
 */
module Scoring {

  /** One recorded submission: `{'question': question, 'answer': answer}`. */
  datatype Answer = Answer(question: int, answer: int)

  /** `REVERSE_INDICES`: positively worded items, 0-based. */
  const ReverseIndices: seq<int> := [3, 4, 6, 7]

  /** What one entry adds to the score: `4 - v` on a reverse item, else `v`. */
  function Contribution(a: Answer): int
  {
    if a.question in ReverseIndices then 4 - a.answer else a.answer
  }

  /**
   * The score of a list of entries: the contributions summed from the first
   * entry to the last, every entry counted, nothing clamped.
   */
  function Score(answers: seq<Answer>): int
  {
    if answers == [] then 0
    else Score(answers[..|answers| - 1]) + Contribution(answers[|answers| - 1])
  }

  /** The score is additive over concatenation. */
  lemma {:induction false} ScoreAppend(s: seq<Answer>, t: seq<Answer>)
    ensures Score(s + t) == Score(s) + Score(t)
  {
    if t == [] {
      assert s + t == s;
    } else {
      var t' := t[..|t| - 1];
      assert (s + t)[..|s + t| - 1] == s + t';
      ScoreAppend(s, t');
    }
  }

  /**
   * No de-duplication: answering the same question again adds its
   * contribution again.
   */
  lemma ResubmissionCounted(s: seq<Answer>, a: Answer)
    ensures Score(s + [a] + [a]) == Score(s) + 2 * Contribution(a)
  {
    ScoreAppend(s, [a]);
    ScoreAppend(s + [a], [a]);
    assert Score([a]) == Score([]) + Contribution(a);
  }

  /** Removing the entry at `k` removes exactly its contribution. */
  lemma ScoreRemove(t: seq<Answer>, k: nat)
    requires k < |t|
    ensures Score(t) == Score(t[..k] + t[k + 1..]) + Contribution(t[k])
  {
    assert t == t[..k] + [t[k]] + t[k + 1..];
    ScoreAppend(t[..k] + [t[k]], t[k + 1..]);
    ScoreAppend(t[..k], [t[k]]);
    ScoreAppend(t[..k], t[k + 1..]);
    assert Score([t[k]]) == Score([]) + Contribution(t[k]);
  }

  /**
   * The order in which answers were submitted does not matter: any two
   * recordings holding the same entries score the same.
   */
  lemma {:induction false} ScoreOrderIndependent(s: seq<Answer>, t: seq<Answer>)
    requires multiset(s) == multiset(t)
    ensures Score(s) == Score(t)
    decreases |s|
  {
    if s == [] {
      assert |t| == |multiset(t)| == 0;
    } else {
      var n := |s| - 1;
      var x := s[n];
      assert s == s[..n] + [x];
      assert x in multiset(t);
      var k :| 0 <= k < |t| && t[k] == x;
      var t' := t[..k] + t[k + 1..];
      assert t == t[..k] + [x] + t[k + 1..];
      assert multiset(t') == multiset(t) - multiset{x};
      assert multiset(s[..n]) == multiset(s) - multiset{x};
      ScoreOrderIndependent(s[..n], t');
      ScoreRemove(t, k);
    }
  }

  /**
   * On the intended 0..4 answer scale every entry adds between 0 and 4, so
   * a score lies between 0 and four times the number of entries.
   */
  lemma {:induction false} ScoreBounds(s: seq<Answer>)
    requires forall i :: 0 <= i < |s| ==> 0 <= s[i].answer <= 4
    ensures 0 <= Score(s) <= 4 * |s|
  {
    if s != [] {
      ScoreBounds(s[..|s| - 1]);
    }
  }

  /** The three bands of the interpretation. */
  datatype StressLevel = Low | Moderate | High
  {
    /** The `stress_level` string of the response. */
    function Name(): string
    {
      match this
      case Low => "Low Stress"
      case Moderate => "Moderate Stress"
      case High => "High Stress"
    }

    /** The fixed `advice` string of the response. */
    function Advice(): string
    {
      match this
      case Low => "You seem to be managing stress well. Keep up the good habits!"
      case Moderate => "You're experiencing moderate stress. Consider taking breaks and practicing relaxation techniques."
      case High => "You're experiencing high stress. Consider seeking support from a counselor or trusted person."
    }
  }

  /**
   * The `if/elif/else` chain: up to 13 is Low, 14 to 26 Moderate, 27 and
   * above High; a tie on a cut point goes to the lower band.
   */
  function Classify(score: int): (level: StressLevel)
    ensures level == Low <==> score <= 13
    ensures level == Moderate <==> 14 <= score <= 26
    ensures level == High <==> score >= 27
  {
    if score <= 13 then Low
    else if score <= 26 then Moderate
    else High
  }

  /** Order of the bands, Low lowest. */
  function Rank(level: StressLevel): nat
  {
    match level
    case Low => 0
    case Moderate => 1
    case High => 2
  }

  /** The band never goes down as the score goes up. */
  lemma ClassifyMonotone(x: int, y: int)
    requires x <= y
    ensures Rank(Classify(x)) <= Rank(Classify(y))
  {
  }

  /** The three bands have distinct names and advice. */
  lemma LevelsDistinct(a: StressLevel, b: StressLevel)
    requires a != b
    ensures a.Name() != b.Name() && a.Advice() != b.Advice()
  {
  }
}
