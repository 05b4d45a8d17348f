/**
 * The lesson flow: a lesson is prepared (enriched by the content provider
 * when it has no dissection pack), then played through discovery,
 * dissection, derivation and a final drill; a failed drill leads to a
 * remediation plan and a retry of the same questions.
 *
 * The content provider is not modelled: each of its answers is a parameter
 * of the method that receives it, and may be one of its fallback values.
 */
module LessonFlow {
  import opened Strings
  import opened Types
  import Dissection

  /** The screens of a lesson, in their rendering order. */
  datatype Phase = PREPARING | DISCOVERY | DISSECTION | DERIVATION | DRILL | REMEDIATION

  /** The position of a phase in the lesson's order. */
  function Rank(p: Phase): (r: nat)
    ensures r <= 5
    ensures p == PREPARING <==> r == 0
  {
    match p
    case PREPARING => 0
    case DISCOVERY => 1
    case DISSECTION => 2
    case DERIVATION => 3
    case DRILL => 4
    case REMEDIATION => 5
  }

  /** The phase changes the lesson's handlers perform. */
  predicate Step(from: Phase, to: Phase) {
    || (from == PREPARING && to == DISCOVERY)
    || (from == DISCOVERY && to == DISSECTION)
    || (from == DISSECTION && to == DERIVATION)
    || (from == DERIVATION && to == DRILL)
    || (from == DRILL && to == REMEDIATION)
    || (from == REMEDIATION && to == DRILL)
  }

  /**
   * Every step moves one phase forward, except the retry, which is the only
   * step back; PREPARING is never re-entered.
   */
  lemma StepIsForwardOrRetry(from: Phase, to: Phase)
    requires Step(from, to)
    ensures Rank(to) == Rank(from) + 1 || (from == REMEDIATION && to == DRILL)
    ensures to != PREPARING
  {
  }

  /** `{ ...base, ...patch }`: a field present in the patch replaces the lesson's. */
  function Over<T>(base: Option<T>, patch: Option<T>): (r: Option<T>)
    ensures patch.Some? ==> r == patch
    ensures patch.None? ==> r == base
  {
    if patch.Some? then patch else base
  }

  function MergeContent(base: Content, patch: Content): Content {
    Content(Over(base.meaning, patch.meaning), Over(base.meaningVi, patch.meaningVi),
            Over(base.phonetic, patch.phonetic),
            Over(base.etymology, patch.etymology), Over(base.etymologyVi, patch.etymologyVi),
            Over(base.funFact, patch.funFact), Over(base.funFactVi, patch.funFactVi),
            Over(base.metaphor, patch.metaphor), Over(base.metaphorVi, patch.metaphorVi),
            Over(base.dissectionPack, patch.dissectionPack),
            Over(base.richDerivatives, patch.richDerivatives))
  }

  /** Merging the same patch twice is merging it once; an empty patch changes nothing. */
  lemma MergeIdempotent(base: Content, patch: Content)
    ensures MergeContent(MergeContent(base, patch), patch) == MergeContent(base, patch)
    ensures MergeContent(base, NoContent) == base
  {
  }

  /** The pack and the derivatives of a merge come from the patch whenever it has them. */
  lemma MergePatchWins(base: Content, patch: Content)
    ensures patch.dissectionPack.Some? ==> MergeContent(base, patch).dissectionPack == patch.dissectionPack
    ensures patch.dissectionPack.None? ==> MergeContent(base, patch).dissectionPack == base.dissectionPack
    ensures patch.richDerivatives.Some? ==> MergeContent(base, patch).richDerivatives == patch.richDerivatives
    ensures patch.meaning.Some? ==> MergeContent(base, patch).meaning == patch.meaning
  {
  }

  /** The hydration test: the lesson has no dissection pack, or an empty one. */
  predicate NeedsEnrichment(lesson: Lesson) {
    lesson.content.dissectionPack.None? || lesson.content.dissectionPack.value == []
  }

  /** `lesson.dissectionPack || []`: the pack handed to the dissection lab. */
  function PackOf(lesson: Lesson): (pack: seq<DissectionTarget>)
    ensures pack == [] <==> NeedsEnrichment(lesson)
  {
    lesson.content.dissectionPack.GetOr([])
  }

  /** What the provider returns when enrichment fails. */
  const EnrichmentFallback := NoContent.(meaning := Some("Error loading content"), dissectionPack := Some([]))

  /**
   * A lesson that needed enrichment and got the fallback still has an empty
   * pack, so it would need enrichment again and its dissection lab has no
   * target.
   */
  lemma FallbackLeavesEmptyPack(lesson: Lesson)
    requires NeedsEnrichment(lesson)
    ensures var merged := lesson.(content := MergeContent(lesson.content, EnrichmentFallback));
            PackOf(merged) == [] && NeedsEnrichment(merged) && merged.content.meaning == Some("Error loading content")
  {
  }

  /** `lesson.meaning || "Unknown"`: an absent or empty meaning is sent as "Unknown". */
  function MeaningOrUnknown(lesson: Lesson): (m: string)
    ensures m != []
    ensures lesson.content.meaning.Some? && lesson.content.meaning.value != [] ==> m == lesson.content.meaning.value
  {
    if lesson.content.meaning.Some? && lesson.content.meaning.value != [] then lesson.content.meaning.value
    else "Unknown"
  }

  /** The arguments of a drill request to the provider. */
  datatype DrillRequest = DrillRequest(root: string, meaning: string)

  /** The enrichment request of the hydration effect: the lesson's root and category. */
  datatype EnrichRequest = EnrichRequest(root: string, category: string)

  /** The sandbox's verification request: the lesson's root and the typed word. */
  datatype VerifyRequest = VerifyRequest(root: string, word: string)

  /** The number of correct picks, picks[i] answering question i. */
  function Correct(qs: seq<DrillQuestion>, picks: seq<string>): (n: nat)
    requires |picks| <= |qs|
    ensures n <= |picks|
    decreases |picks|
  {
    if picks == [] then 0
    else
      var k := |picks| - 1;
      Correct(qs, picks[..k]) + (if picks[k] == qs[k].correctAnswer then 1 else 0)
  }

  /** The texts of the questions picked wrongly, in question order. */
  function Missed(qs: seq<DrillQuestion>, picks: seq<string>): (m: seq<string>)
    requires |picks| <= |qs|
    decreases |picks|
  {
    if picks == [] then []
    else
      var k := |picks| - 1;
      Missed(qs, picks[..k]) + (if picks[k] == qs[k].correctAnswer then [] else [qs[k].question])
  }

  /** Every answered question is counted exactly once, as correct or as missed. */
  lemma {:induction false} CorrectPlusMissed(qs: seq<DrillQuestion>, picks: seq<string>)
    requires |picks| <= |qs|
    ensures Correct(qs, picks) + |Missed(qs, picks)| == |picks|
    decreases |picks|
  {
    if picks != [] {
      CorrectPlusMissed(qs, picks[..|picks| - 1]);
    }
  }

  /** Each missed entry is the text of a question whose pick was wrong. */
  lemma {:induction false} MissedAreWrongAnswers(qs: seq<DrillQuestion>, picks: seq<string>)
    requires |picks| <= |qs|
    ensures forall m :: m in Missed(qs, picks) ==>
              exists i :: 0 <= i < |picks| && picks[i] != qs[i].correctAnswer && qs[i].question == m
    decreases |picks|
  {
    if picks != [] {
      var k := |picks| - 1;
      MissedAreWrongAnswers(qs, picks[..k]);
      forall m | m in Missed(qs, picks)
        ensures exists i :: 0 <= i < |picks| && picks[i] != qs[i].correctAnswer && qs[i].question == m
      {
        if m in Missed(qs, picks[..k]) {
          var i :| 0 <= i < k && picks[..k][i] != qs[i].correctAnswer && qs[i].question == m;
          assert picks[i] == picks[..k][i];
        } else {
          assert picks[k] != qs[k].correctAnswer && qs[k].question == m;
        }
      }
    }
  }

  /** One more pick adds one to the correct count or one entry to the missed list, never both. */
  lemma PickAppends(qs: seq<DrillQuestion>, picks: seq<string>, option: string)
    requires |picks| < |qs|
    ensures option == qs[|picks|].correctAnswer ==>
              Correct(qs, picks + [option]) == Correct(qs, picks) + 1 && Missed(qs, picks + [option]) == Missed(qs, picks)
    ensures option != qs[|picks|].correctAnswer ==>
              Correct(qs, picks + [option]) == Correct(qs, picks) &&
              Missed(qs, picks + [option]) == Missed(qs, picks) + [qs[|picks|].question]
  {
    assert (picks + [option])[..|picks|] == picks;
  }

  /** `finishDrill`'s rule: at least 7 correct out of an assumed 10 questions. */
  predicate DrillPassed(missedCount: nat) {
    10 - missedCount >= 7
  }

  /** A 70% pass mark over the real number of questions. */
  predicate SeventyPercent(correct: nat, questions: nat) {
    10 * correct >= 7 * questions
  }

  /**
   * The drill rule is the 70% mark exactly when there are 10 questions. With
   * 5 questions, 3 misses (40%) pass; with 20, 4 misses (80%) fail.
   */
  lemma DrillRuleAssumesTen(correct: nat, missed: nat)
    requires correct + missed == 10
    ensures DrillPassed(missed) <==> SeventyPercent(correct, 10)
    ensures DrillPassed(3) && !SeventyPercent(2, 5)
    ensures !DrillPassed(4) && SeventyPercent(16, 20)
  {
  }

  /** The sandbox verdict shown under the input. */
  datatype SandboxResult = SandboxResult(valid: bool, text: string)

  /** The provider's analysis of a learner's word. */
  datatype Verdict = Verdict(isValid: bool, analysis: string, hasParts: bool,
                             meaning: Option<string>, meaningVi: Option<string>)

  /** The derivative card built for an accepted learner word. */
  function UserCard(word: string, v: Verdict): (d: RichDerivative)
    ensures d.word == word && d.example == "User submitted word" && d.exampleVi == "Từ người dùng đóng góp"
    ensures d.definition == v.meaning.GetOr("") && d.definitionVi == v.meaningVi.GetOr("")
  {
    RichDerivative(word, v.meaning.GetOr(""), v.meaningVi.GetOr(""), "User submitted word", "Từ người dùng đóng góp")
  }

  /**
   * `richDerivatives.find(d => d.word === word)`: the first derivative card
   * with that word, if any.
   */
  function FindDerivative(ds: seq<RichDerivative>, word: string): (r: Option<RichDerivative>)
    ensures r.Some? <==> exists i :: 0 <= i < |ds| && ds[i].word == word
    ensures r.Some? ==> r.value.word == word && r.value in ds
    ensures r.Some? ==> exists i :: 0 <= i < |ds| && ds[i] == r.value &&
                         forall j :: 0 <= j < i ==> ds[j].word != word
  {
    if ds == [] then None
    else if ds[0].word == word then Some(ds[0])
    else
      var r := FindDerivative(ds[1..], word);
      assert forall i :: 1 <= i < |ds| ==> ds[i] == ds[1..][i - 1];
      r
  }

  /** The drill's fields together, for stating what a handler leaves alone. */
  datatype DrillView = DrillView(questions: seq<DrillQuestion>, index: nat, score: int,
                                 selected: Option<string>, showAnswer: bool, missed: seq<string>, loading: bool)

  /** The remediation screen's fields together. */
  datatype RemediationView = RemediationView(plan: Option<RemediationPlan>, loading: bool)

  /** The word lab's sandbox fields together. */
  datatype SandboxView = SandboxView(word: string, result: Option<SandboxResult>, selected: Option<RichDerivative>)

  class LessonFlow {
    var lesson: Lesson
    var phase: Phase
    var drillQuestions: seq<DrillQuestion>
    var currentQuestionIndex: nat
    /** The header's score: 10 per correct drill answer. */
    var score: int
    var selectedOption: Option<string>
    var showAnswer: bool
    var missedConcepts: seq<string>
    var loadingDrill: bool
    var remediation: Option<RemediationPlan>
    var loadingRemediation: bool
    var userWord: string
    var sandboxResult: Option<SandboxResult>
    var selectedDerivative: Option<RichDerivative>
    /** How many times `onComplete` has been called. */
    var completeCalls: nat
    /** The option picked for each answered question of the current attempt. */
    ghost var picks: seq<string>

    function Drill(): DrillView
      reads this
    {
      DrillView(drillQuestions, currentQuestionIndex, score, selectedOption, showAnswer, missedConcepts, loadingDrill)
    }

    function Remediation(): RemediationView
      reads this
    {
      RemediationView(remediation, loadingRemediation)
    }

    function Sandbox(): SandboxView
      reads this
    {
      SandboxView(userWord, sandboxResult, selectedDerivative)
    }

    /** The number of questions answered in the current attempt. */
    function Answered(): nat
      reads this
    {
      currentQuestionIndex + (if showAnswer then 1 else 0)
    }

    /**
     * A question is answered at most once, in order; the score and the
     * missed list are those of the picks; a question list arrives only into
     * a fresh drill; remediation follows a finished, failed drill.
     */
    ghost predicate Valid()
      reads this
    {
      && (drillQuestions == [] ==>
            currentQuestionIndex == 0 && !showAnswer && selectedOption.None? && picks == [] &&
            score == 0 && missedConcepts == [])
      && (drillQuestions != [] ==> currentQuestionIndex < |drillQuestions| && !loadingDrill)
      && |picks| == Answered()
      && (showAnswer <==> selectedOption.Some?)
      && (showAnswer ==> selectedOption.value == picks[|picks| - 1])
      && |picks| <= |drillQuestions|
      && score == 10 * Correct(drillQuestions, picks)
      && missedConcepts == Missed(drillQuestions, picks)
      && (loadingDrill ==> phase == DRILL)
      && (loadingRemediation ==> phase == REMEDIATION)
      && (phase == REMEDIATION ==>
            drillQuestions != [] && |picks| == |drillQuestions| && !DrillPassed(|missedConcepts|))
    }

    /** Mounting: the given lesson, the preparing screen and an empty drill. */
    constructor (lesson: Lesson)
      ensures Valid()
      ensures this.lesson == lesson && phase == PREPARING && completeCalls == 0
      ensures Drill() == DrillView([], 0, 0, None, false, [], false)
      ensures remediation == None && !loadingRemediation
      ensures userWord == [] && sandboxResult == None && selectedDerivative == None
    {
      this.lesson := lesson;
      phase := PREPARING;
      drillQuestions := [];
      currentQuestionIndex := 0;
      score := 0;
      selectedOption := None;
      showAnswer := false;
      missedConcepts := [];
      loadingDrill := false;
      remediation := None;
      loadingRemediation := false;
      userWord := [];
      sandboxResult := None;
      selectedDerivative := None;
      completeCalls := 0;
      picks := [];
    }

    /**
     * The hydration effect: a lesson without a (non-empty) pack is merged
     * with the provider's enrichment, the answer to the returned request;
     * in every case the lesson moves on to discovery.
     */
    method Hydrate(enriched: Content) returns (request: Option<EnrichRequest>)
      requires Valid() && phase == PREPARING
      modifies this
      ensures Valid()
      ensures phase == DISCOVERY && Step(old(phase), phase)
      ensures request.Some? <==> NeedsEnrichment(old(lesson))
      ensures request.Some? ==> request.value == EnrichRequest(old(lesson).root, old(lesson).category)
      ensures NeedsEnrichment(old(lesson)) ==> lesson == old(lesson).(content := MergeContent(old(lesson).content, enriched))
      ensures !NeedsEnrichment(old(lesson)) ==> lesson == old(lesson)
      ensures lesson.id == old(lesson.id) && lesson.root == old(lesson.root)
      ensures Drill() == old(Drill()) && completeCalls == old(completeCalls)
      ensures Remediation() == old(Remediation()) && Sandbox() == old(Sandbox())
    {
      request := None;
      if NeedsEnrichment(lesson) {
        request := Some(EnrichRequest(lesson.root, lesson.category));
        lesson := lesson.(content := MergeContent(lesson.content, enriched));
      }
      phase := DISCOVERY;
    }

    /** "Start Dissection". */
    method StartDissection()
      requires Valid() && phase == DISCOVERY
      modifies this
      ensures Valid()
      ensures phase == DISSECTION && Step(old(phase), phase)
      ensures lesson == old(lesson) && Drill() == old(Drill()) && completeCalls == old(completeCalls)
      ensures Remediation() == old(Remediation()) && Sandbox() == old(Sandbox())
    {
      phase := DISSECTION;
    }

    /**
     * The dissection lab's completion callback, which the lab playing this
     * lesson's pack calls once it has signalled completion.
     */
    method DissectionComplete(lab: Dissection.DissectionLab)
      requires Valid() && phase == DISSECTION
      requires lab.Valid() && lab.pack == PackOf(lesson) && lab.completions > 0
      modifies this
      ensures Valid()
      ensures phase == DERIVATION && Step(old(phase), phase)
      ensures lesson == old(lesson) && Drill() == old(Drill()) && completeCalls == old(completeCalls)
      ensures Remediation() == old(Remediation()) && Sandbox() == old(Sandbox())
    {
      phase := DERIVATION;
    }

    /**
     * "Start Final Drill", with the drill-load effect: a request for the
     * lesson's questions goes out only when there are none and none is
     * pending.
     */
    method StartDrill() returns (request: Option<DrillRequest>)
      requires Valid() && phase == DERIVATION
      modifies this
      ensures Valid()
      ensures phase == DRILL && Step(old(phase), phase)
      ensures request.Some? <==> old(drillQuestions) == [] && !old(loadingDrill)
      ensures request.Some? ==> request.value == DrillRequest(lesson.root, MeaningOrUnknown(lesson)) && loadingDrill
      ensures request.None? ==> loadingDrill == old(loadingDrill)
      ensures drillQuestions == old(drillQuestions) && score == old(score) && missedConcepts == old(missedConcepts)
      ensures lesson == old(lesson) && completeCalls == old(completeCalls)
      ensures Remediation() == old(Remediation()) && Sandbox() == old(Sandbox())
    {
      phase := DRILL;
      request := None;
      if drillQuestions == [] && !loadingDrill {
        loadingDrill := true;
        request := Some(DrillRequest(lesson.root, MeaningOrUnknown(lesson)));
      }
    }

    /** The provider's questions arrive (possibly its empty fallback). */
    method DrillLoaded(questions: seq<DrillQuestion>)
      requires Valid() && loadingDrill
      modifies this
      ensures Valid()
      ensures Drill() == DrillView(questions, 0, 0, None, false, [], false)
      ensures phase == old(phase) && lesson == old(lesson) && completeCalls == old(completeCalls)
      ensures Remediation() == old(Remediation()) && Sandbox() == old(Sandbox())
    {
      drillQuestions := questions;
      loadingDrill := false;
    }

    /** A drill question is on screen: the drill has questions and is not loading. */
    predicate QuestionShown()
      reads this
    {
      phase == DRILL && !loadingDrill && drillQuestions != []
    }

    /**
     * An empty answer from the provider leaves the drill on its loading
     * screen for good. The load effect only runs on a phase change, and in
     * this state no handler is enabled: `HandleOptionSelect` needs a shown
     * question, `NextQuestion` and `FinishedDrillRule` a shown answer,
     * `DrillLoaded` and `RemediationLoaded` a pending load, and every other
     * handler another phase.
     */
    lemma EmptyDrillStalls()
      requires Valid() && phase == DRILL && !loadingDrill && drillQuestions == []
      ensures !QuestionShown() && !showAnswer && !loadingRemediation && Answered() == 0
      ensures Drill() == DrillView([], 0, 0, None, false, [], false)
    {
    }

    /**
     * `handleOptionSelect`: ignored once the answer is shown; otherwise the
     * question locks, and a correct pick adds 10 to the score while a wrong
     * one appends the question's text to the missed list.
     */
    method HandleOptionSelect(option: string)
      requires Valid() && QuestionShown()
      modifies this
      ensures Valid()
      ensures old(showAnswer) ==> Drill() == old(Drill()) && picks == old(picks)
      ensures !old(showAnswer) ==>
        var q := old(drillQuestions)[old(currentQuestionIndex)];
        && showAnswer && selectedOption == Some(option)
        && drillQuestions == old(drillQuestions) && currentQuestionIndex == old(currentQuestionIndex)
        && (option == q.correctAnswer ==> score == old(score) + 10 && missedConcepts == old(missedConcepts))
        && (option != q.correctAnswer ==> score == old(score) && missedConcepts == old(missedConcepts) + [q.question])
      ensures phase == old(phase) && lesson == old(lesson) && completeCalls == old(completeCalls)
      ensures Remediation() == old(Remediation()) && Sandbox() == old(Sandbox())
    {
      if !showAnswer {
        AnswerQuestion(option);
      }
    }

    /** A pick that is not ignored: it locks the question and is scored. */
    method AnswerQuestion(option: string)
      requires Valid() && QuestionShown() && !showAnswer
      modifies this`picks, this`selectedOption, this`showAnswer, this`score, this`missedConcepts
      ensures Valid()
      ensures var q := old(drillQuestions)[old(currentQuestionIndex)];
        && showAnswer && selectedOption == Some(option)
        && drillQuestions == old(drillQuestions) && currentQuestionIndex == old(currentQuestionIndex)
        && (option == q.correctAnswer ==> score == old(score) + 10 && missedConcepts == old(missedConcepts))
        && (option != q.correctAnswer ==> score == old(score) && missedConcepts == old(missedConcepts) + [q.question])
    {
      var q := drillQuestions[currentQuestionIndex];
      var right := option == q.correctAnswer;
      assert 10 * Correct(drillQuestions, picks + [option]) == (if right then score + 10 else score) &&
             Missed(drillQuestions, picks + [option]) == (if right then missedConcepts else missedConcepts + [q.question]) by {
        PickAppends(drillQuestions, picks, option);
      }
      picks, selectedOption, showAnswer, score, missedConcepts :=
        picks + [option], Some(option), true,
        if right then score + 10 else score,
        if right then missedConcepts else missedConcepts + [q.question];
    }

    /**
     * `nextQuestion`, offered once the answer is shown: before the last
     * question it moves on and clears the selection; at the last one it
     * finishes the drill. `finishDrill` calls `onComplete` when
     * `10 - |missed| >= 7` and otherwise starts remediation, whose request
     * carries the missed list.
     */
    method NextQuestion() returns (remediationRequest: Option<seq<string>>)
      requires Valid() && phase == DRILL && showAnswer
      modifies this
      ensures Valid()
      ensures phase == old(phase) || Step(old(phase), phase)
      ensures old(currentQuestionIndex) < |old(drillQuestions)| - 1 ==>
        && currentQuestionIndex == old(currentQuestionIndex) + 1 && !showAnswer && selectedOption.None?
        && drillQuestions == old(drillQuestions) && score == old(score) && missedConcepts == old(missedConcepts)
        && phase == DRILL && completeCalls == old(completeCalls) && remediationRequest.None?
        && Remediation() == old(Remediation())
      ensures old(currentQuestionIndex) == |old(drillQuestions)| - 1 && DrillPassed(|old(missedConcepts)|) ==>
        && completeCalls == old(completeCalls) + 1 && Drill() == old(Drill()) && phase == DRILL
        && remediationRequest.None? && Remediation() == old(Remediation())
      ensures old(currentQuestionIndex) == |old(drillQuestions)| - 1 && !DrillPassed(|old(missedConcepts)|) ==>
        && phase == REMEDIATION && loadingRemediation && completeCalls == old(completeCalls)
        && Drill() == old(Drill()) && remediationRequest == Some(old(missedConcepts))
      ensures lesson == old(lesson) && remediation == old(remediation) && Sandbox() == old(Sandbox())
    {
      remediationRequest := None;
      if currentQuestionIndex < |drillQuestions| - 1 {
        currentQuestionIndex := currentQuestionIndex + 1;
        selectedOption := None;
        showAnswer := false;
      } else if DrillPassed(|missedConcepts|) {
        completeCalls := completeCalls + 1;
      } else {
        loadingRemediation := true;
        phase := REMEDIATION;
        remediationRequest := Some(missedConcepts);
      }
    }

    /**
     * A finished drill is completed exactly when at most three questions
     * were missed, whatever the number of questions.
     */
    lemma FinishedDrillRule()
      requires Valid() && phase == DRILL && showAnswer && currentQuestionIndex == |drillQuestions| - 1
      ensures |missedConcepts| + Correct(drillQuestions, picks) == |drillQuestions|
      ensures DrillPassed(|missedConcepts|) <==> |missedConcepts| <= 3
      ensures 0 <= score <= 10 * |drillQuestions|
    {
      CorrectPlusMissed(drillQuestions, picks);
    }

    /** The remediation plan arrives (possibly the provider's fallback plan). */
    method RemediationLoaded(plan: RemediationPlan)
      requires Valid() && loadingRemediation
      modifies this
      ensures Valid()
      ensures remediation == Some(plan) && !loadingRemediation
      ensures phase == old(phase) && Drill() == old(Drill()) && completeCalls == old(completeCalls)
      ensures lesson == old(lesson) && Sandbox() == old(Sandbox())
    {
      remediation := Some(plan);
      loadingRemediation := false;
    }

    /**
     * "Try Again" on a loaded plan: the drill restarts on a permutation of
     * the same questions with score, index, selection and missed list reset.
     * The load effect sees questions, so nothing is fetched.
     */
    method RetryDrill(shuffled: seq<DrillQuestion>)
      requires Valid() && phase == REMEDIATION && !loadingRemediation && remediation.Some?
      requires multiset(shuffled) == multiset(drillQuestions)
      modifies this
      ensures Valid()
      ensures phase == DRILL && Step(old(phase), phase)
      ensures Drill() == DrillView(shuffled, 0, 0, None, false, [], old(loadingDrill))
      ensures multiset(drillQuestions) == multiset(old(drillQuestions)) && drillQuestions != []
      ensures lesson == old(lesson) && completeCalls == old(completeCalls)
      ensures Remediation() == old(Remediation()) && Sandbox() == old(Sandbox())
    {
      assert |shuffled| == |multiset(shuffled)|;
      drillQuestions, currentQuestionIndex, score, selectedOption, showAnswer, missedConcepts, picks, phase :=
        shuffled, 0, 0, None, false, [], [], DRILL;
    }

    /** Typing in the sandbox input, which is on screen only in the derivation phase. */
    method SetUserWord(word: string)
      requires Valid() && phase == DERIVATION
      modifies this
      ensures Valid()
      ensures userWord == word && sandboxResult == old(sandboxResult) && selectedDerivative == old(selectedDerivative)
      ensures phase == old(phase) && Drill() == old(Drill())
      ensures lesson == old(lesson) && completeCalls == old(completeCalls) && Remediation() == old(Remediation())
    {
      userWord := word;
    }

    /**
     * `handleSandboxCheck`: a blank or whitespace-only word does nothing
     * (the source tests `userWord.trim()`, which is empty exactly for those
     * words by `TrimBlankIff`).
     * Otherwise the word goes to the provider in the returned request, its
     * verdict is shown, and an accepted word with parts becomes the selected
     * derivative card. The check is offered only in the derivation phase.
     */
    method SandboxCheck(verdict: Verdict) returns (request: Option<VerifyRequest>)
      requires Valid() && phase == DERIVATION
      modifies this
      ensures Valid()
      ensures request.Some? <==> !AllWhitespace(old(userWord))
      ensures request.Some? ==> request.value == VerifyRequest(lesson.root, userWord)
      ensures AllWhitespace(old(userWord)) ==>
        sandboxResult == old(sandboxResult) && selectedDerivative == old(selectedDerivative)
      ensures !AllWhitespace(old(userWord)) ==>
        && sandboxResult == Some(SandboxResult(verdict.isValid, verdict.analysis))
        && (verdict.isValid && verdict.hasParts ==> selectedDerivative == Some(UserCard(userWord, verdict)))
        && (!(verdict.isValid && verdict.hasParts) ==> selectedDerivative == old(selectedDerivative))
      ensures userWord == old(userWord) && phase == old(phase) && Drill() == old(Drill())
      ensures lesson == old(lesson) && completeCalls == old(completeCalls) && Remediation() == old(Remediation())
    {
      if AllWhitespace(userWord) {
        return None;
      }
      request := Some(VerifyRequest(lesson.root, userWord));
      sandboxResult, selectedDerivative :=
        Some(SandboxResult(verdict.isValid, verdict.analysis)),
        if verdict.isValid && verdict.hasParts then Some(UserCard(userWord, verdict)) else selectedDerivative;
    }

    /**
     * A click on a node of the derivation tree: when the lesson has a
     * derivative card for that word, the first such card is selected and the
     * sandbox verdict is cleared; otherwise nothing changes.
     */
    method SelectNode(word: string)
      requires Valid() && phase == DERIVATION
      modifies this
      ensures Valid()
      ensures var found := FindDerivative(lesson.content.richDerivatives.GetOr([]), word);
        && (found.Some? ==> selectedDerivative == found && sandboxResult == None)
        && (found.None? ==> selectedDerivative == old(selectedDerivative) && sandboxResult == old(sandboxResult))
      ensures userWord == old(userWord) && phase == old(phase) && lesson == old(lesson) && Drill() == old(Drill())
      ensures completeCalls == old(completeCalls) && Remediation() == old(Remediation())
    {
      var found := FindDerivative(lesson.content.richDerivatives.GetOr([]), word);
      if found.Some? {
        selectedDerivative, sandboxResult := found, None;
      }
    }
  }

  /**
   * A lesson whose pack is empty (as after the enrichment fallback) can
   * never leave dissection: no valid lab over its pack signals completion.
   */
  lemma EmptyPackBlocksDissection(lesson: Lesson, lab: Dissection.DissectionLab)
    requires NeedsEnrichment(lesson) && lab.Valid() && lab.pack == PackOf(lesson)
    ensures lab.completions == 0
  {
    lab.EmptyPackNeverCompletes();
  }
}
