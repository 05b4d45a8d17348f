/**
 * The tier assessment: the provider's questions are answered in any order
 * and any number of times, the exam is submitted once every question has an
 * answer, and the result (rounded percentage, pass flag, provider feedback,
 * date) is handed to the application.
 */
module Assessment {
  import opened Strings
  import opened Types

  /** Question `i` has an answer, and it is the correct option. */
  predicate IsRight(qs: seq<DrillQuestion>, answers: map<nat, string>, i: nat)
    requires i < |qs|
  {
    i in answers && answers[i] == qs[i].correctAnswer
  }

  /** The number of right answers among the first `k` questions. */
  function CountRight(qs: seq<DrillQuestion>, answers: map<nat, string>, k: nat): (n: nat)
    requires k <= |qs|
    ensures n <= k
  {
    if k == 0 then 0 else CountRight(qs, answers, k - 1) + (if IsRight(qs, answers, k - 1) then 1 else 0)
  }

  /** `s.substring(0, 20) + "..."`. */
  function Truncate20(s: string): (r: string)
    ensures |s| <= 20 ==> r == s + "..."
    ensures |s| > 20 ==> |r| == 23 && r[..20] == s[..20]
    ensures r[|r| - 3..] == "..."
  {
    (if |s| <= 20 then s else s[..20]) + "..."
  }

  /** The missed list of the first `k` questions: one truncated text per question not answered right. */
  function MissedUpTo(qs: seq<DrillQuestion>, answers: map<nat, string>, k: nat): (m: seq<string>)
    requires k <= |qs|
  {
    if k == 0 then []
    else MissedUpTo(qs, answers, k - 1) + (if IsRight(qs, answers, k - 1) then [] else [Truncate20(qs[k - 1].question)])
  }

  /** Every question is counted once: as right, or with an entry in the missed list. */
  lemma {:induction false} RightPlusMissed(qs: seq<DrillQuestion>, answers: map<nat, string>, k: nat)
    requires k <= |qs|
    ensures CountRight(qs, answers, k) + |MissedUpTo(qs, answers, k)| == k
  {
    if k > 0 {
      RightPlusMissed(qs, answers, k - 1);
    }
  }

  /** The indices below `k` answered right. */
  function RightSet(qs: seq<DrillQuestion>, answers: map<nat, string>, k: nat): set<nat>
    requires k <= |qs|
  {
    set i: nat | i < k && IsRight(qs, answers, i)
  }

  /** The count is the size of the set of right indices. */
  lemma {:induction false} CountIsSetSize(qs: seq<DrillQuestion>, answers: map<nat, string>, k: nat)
    requires k <= |qs|
    ensures CountRight(qs, answers, k) == |RightSet(qs, answers, k)|
  {
    if k > 0 {
      CountIsSetSize(qs, answers, k - 1);
      var prev := RightSet(qs, answers, k - 1);
      if IsRight(qs, answers, k - 1) {
        assert RightSet(qs, answers, k) == prev + {k - 1};
        assert k - 1 !in prev;
      } else {
        assert RightSet(qs, answers, k) == prev;
      }
    }
  }

  /**
   * `submitExam`'s loop: each question whose answer is its correct option
   * scores one point, every other one (unanswered included) adds its
   * truncated text to the missed list.
   */
  method ScoreExam(qs: seq<DrillQuestion>, answers: map<nat, string>) returns (score: nat, missed: seq<string>)
    ensures score == CountRight(qs, answers, |qs|) && missed == MissedUpTo(qs, answers, |qs|)
    ensures score + |missed| == |qs|
    ensures score == |RightSet(qs, answers, |qs|)|
  {
    score, missed := 0, [];
    var idx := 0;
    while idx < |qs|
      invariant idx <= |qs|
      invariant score == CountRight(qs, answers, idx) && missed == MissedUpTo(qs, answers, idx)
    {
      var q := qs[idx];
      if idx in answers && answers[idx] == q.correctAnswer {
        score := score + 1;
      } else {
        missed := missed + [Truncate20(q.question)];
      }
      idx := idx + 1;
    }
    RightPlusMissed(qs, answers, |qs|);
    CountIsSetSize(qs, answers, |qs|);
  }

  /**
   * `Math.round((c / n) * 100)` over exact rationals: the percentage rounded
   * half up, and NaN for an exam with no questions.
   */
  function RoundedPercent(c: nat, n: nat): (r: Score)
    ensures n == 0 <==> r == NaN
    ensures n > 0 ==> 2 * n * r.value <= 200 * c + n < 2 * n * r.value + 2 * n
    ensures n > 0 && c <= n ==> 0 <= r.value <= 100
  {
    if n == 0 then NaN
    else
      var r := (200 * c + n) / (2 * n);
      DivBounds(200 * c + n, 2 * n);
      if c <= n then
        assert 2 * n * r <= 200 * n + n < 2 * n * 101;
        LessThanByFactor(r, 101, 2 * n);
        Pct(r)
      else Pct(r)
  }

  /** The quotient of `a` by positive `d` is the largest `q` with `d * q <= a`. */
  lemma DivBounds(a: nat, d: nat)
    requires d > 0
    ensures d * (a / d) <= a < d * (a / d) + d
    ensures 0 <= a / d
  {
  }

  lemma LessThanByFactor(x: int, y: int, d: nat)
    requires d > 0 && d * x < d * y
    ensures x < y
  {
  }

  lemma MulMonotone(d: nat, x: int, y: int)
    requires x <= y
    ensures d * x <= d * y
  {
    assert d * y == d * x + d * (y - x);
  }

  /** `finalScore >= 70`; NaN compares false. */
  predicate PassedScore(s: Score) {
    s.Pct? && s.value >= 70
  }

  /** The saved pass flag without rounding: at least 69.5% right. */
  lemma PassIff(c: nat, n: nat)
    requires n > 0
    ensures PassedScore(RoundedPercent(c, n)) <==> 200 * c >= 139 * n
  {
    var r := RoundedPercent(c, n).value;
    if r >= 70 {
      MulMonotone(2 * n, 70, r);
    } else {
      MulMonotone(2 * n, r + 1, 70);
    }
  }

  /** The results screen's `score / n >= 0.7`; NaN for no questions compares false. */
  predicate DisplayedPass(c: nat, n: nat) {
    n > 0 && 10 * c >= 7 * n
  }

  /** The displayed and the saved verdicts agree for every exam with fewer than 20 questions. */
  lemma DisplayedAgreesBelow20(c: nat, n: nat)
    requires n < 20
    ensures DisplayedPass(c, n) <==> PassedScore(RoundedPercent(c, n))
  {
    if n > 0 {
      PassIff(c, n);
    }
  }

  /** A 7-in-10 exam passes, a 6-in-10 one does not, and an empty exam scores NaN and fails. */
  lemma SampleScores()
    ensures RoundedPercent(7, 10) == Pct(70) && PassedScore(RoundedPercent(7, 10))
    ensures RoundedPercent(6, 10) == Pct(60) && !PassedScore(RoundedPercent(6, 10))
    ensures RoundedPercent(0, 0) == NaN && !PassedScore(RoundedPercent(0, 0)) && !DisplayedPass(0, 0)
  {
    PassIff(7, 10);
    PassIff(6, 10);
  }

  /** 16 right of 23 rounds to 70 and is saved as passed, but is displayed as "Keep Practicing". */
  lemma DisplayedDisagrees16of23()
    ensures RoundedPercent(16, 23) == Pct(70)
    ensures PassedScore(RoundedPercent(16, 23)) && !DisplayedPass(16, 23)
  {
    PassIff(16, 23);
  }

  /** The indices `0 .. n-1`. */
  function Range(n: nat): (r: set<nat>)
    ensures |r| == n
    ensures forall i: nat :: i in r <==> i < n
  {
    if n == 0 then {} else
      var r := Range(n - 1) + {n - 1};
      assert n - 1 !in Range(n - 1);
      r
  }

  /** A subset as large as its superset is the superset. */
  lemma {:induction false} SubsetOfSameSize(a: set<nat>, b: set<nat>)
    requires a <= b && |a| >= |b|
    ensures a == b
  {
    if a != b {
      var x :| x in b && x !in a;
      assert a <= b - {x};
      SubsetSize(a, b - {x});
    }
  }

  lemma {:induction false} SubsetSize(a: set<nat>, b: set<nat>)
    requires a <= b
    ensures |a| <= |b|
  {
    assert b == a + (b - a);
  }

  class TierAssessment {
    const tierId: int
    const roots: seq<string>
    var loading: bool
    var questions: seq<DrillQuestion>
    /** The chosen option per question index. */
    var answers: map<nat, string>
    var finished: bool
    var evaluation: string
    var evaluating: bool

    /** Answers only ever name shown questions, and questions arrive before any answer. */
    ghost predicate Valid()
      reads this
    {
      && (forall k :: k in answers ==> k < |questions|)
      && (loading ==> answers == map[] && !finished)
    }

    /** Mounting: loading, with no questions and no answers. */
    constructor (tierId: int, roots: seq<string>)
      ensures Valid()
      ensures this.tierId == tierId && this.roots == roots
      ensures loading && questions == [] && answers == map[] && !finished && !evaluating
    {
      this.tierId := tierId;
      this.roots := roots;
      loading := true;
      questions := [];
      answers := map[];
      finished := false;
      evaluation := [];
      evaluating := false;
    }

    /** The provider's exam arrives (possibly its empty fallback). */
    method QuestionsLoaded(qs: seq<DrillQuestion>)
      requires Valid() && loading
      modifies this
      ensures Valid()
      ensures !loading && questions == qs && answers == map[] && !finished
      ensures evaluation == old(evaluation) && evaluating == old(evaluating)
    {
      questions := qs;
      loading := false;
    }

    /** `handleSelect`: the answer of question `idx` becomes `opt`; every other answer stays. */
    method HandleSelect(idx: nat, opt: string)
      requires Valid() && !loading && !finished && idx < |questions|
      modifies this
      ensures Valid()
      ensures answers == old(answers)[idx := opt]
      ensures questions == old(questions) && !finished && !loading
      ensures evaluation == old(evaluation) && evaluating == old(evaluating)
    {
      answers := answers[idx := opt];
    }

    /** The submit button is enabled: at least as many answers as questions. */
    predicate CanSubmit()
      reads this
    {
      |answers.Keys| >= |questions|
    }

    /** Submission is enabled exactly when every question has an answer (so always, without questions). */
    lemma CanSubmitIffAllAnswered()
      requires Valid()
      ensures CanSubmit() <==> forall i: nat :: i < |questions| ==> i in answers
      ensures questions == [] ==> CanSubmit()
    {
      var range := Range(|questions|);
      assert answers.Keys <= range;
      if CanSubmit() {
        SubsetOfSameSize(answers.Keys, range);
      } else {
        if forall i: nat :: i < |questions| ==> i in answers {
          assert range <= answers.Keys;
          SubsetSize(range, answers.Keys);
        }
      }
    }

    /**
     * `submitExam`: the answers are scored, the saved percentage is rounded
     * and `passed` is `finalScore >= 70`; the result carries the provider's
     * feedback on the score and the missed list, and the submission date.
     */
    method SubmitExam(feedback: string, date: string) returns (result: TierAssessmentResult, missed: seq<string>)
      requires Valid() && !loading && !finished && CanSubmit()
      modifies this
      ensures Valid()
      ensures finished && !evaluating && evaluation == feedback
      ensures answers == old(answers) && questions == old(questions)
      ensures var c := CountRight(questions, answers, |questions|);
              && result == TierAssessmentResult(tierId, RoundedPercent(c, |questions|),
                                                PassedScore(RoundedPercent(c, |questions|)), feedback, date)
              && missed == MissedUpTo(questions, answers, |questions|)
              && c + |missed| == |questions|
    {
      finished := true;
      evaluating := true;
      var score;
      score, missed := ScoreExam(questions, answers);
      var finalScore := RoundedPercent(score, |questions|);
      var passed := PassedScore(finalScore);
      evaluation := feedback;
      evaluating := false;
      result := TierAssessmentResult(tierId, finalScore, passed, feedback, date);
    }

    /** The results screen's count: the answered keys whose option is correct. */
    function DisplayedScore(): (n: nat)
      reads this
      requires Valid()
    {
      |set k | k in answers && answers[k] == questions[k].correctAnswer|
    }

    /** The results screen counts the same points as the saved score. */
    lemma DisplayedScoreIsSavedScore()
      requires Valid()
      ensures DisplayedScore() == CountRight(questions, answers, |questions|)
    {
      CountIsSetSize(questions, answers, |questions|);
      assert (set k | k in answers && answers[k] == questions[k].correctAnswer) == RightSet(questions, answers, |questions|);
    }
  }
}
