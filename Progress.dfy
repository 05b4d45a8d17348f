/**
 * How the application changes a user's progress when a lesson is completed
 * and when a tier assessment result arrives, with the invariants these
 * updates keep and their effect on the dashboard's derived views.
 */
module Progress {
  import opened Types
  import opened Constants
  import opened Dashboard

  /** Lesson completion: XP and garden award, granted once per lesson id. */
  const LessonXp := 100
  /** The XP bonus of a passed tier assessment. */
  const AssessmentXp := 500

  /**
   * The progress after completing the lesson `id`: unchanged when `id` is
   * already completed; otherwise `id` is appended, XP grows by 100 and the
   * garden by one tree.
   */
  function CompleteLesson(p: UserProgress, id: string): (q: UserProgress)
    ensures id in q.completedLessons
    ensures id in p.completedLessons ==> q == p
    ensures id !in p.completedLessons ==>
      q.completedLessons == p.completedLessons + [id] && q.xp == p.xp + LessonXp &&
      q.garden.trees == p.garden.trees + 1 && q.garden.level == p.garden.level &&
      q.unlockedTiers == p.unlockedTiers && q.assessments == p.assessments
  {
    if id in p.completedLessons then p
    else p.(completedLessons := p.completedLessons + [id], xp := p.xp + LessonXp,
            garden := p.garden.(trees := p.garden.trees + 1))
  }

  /** `list.includes(x) ? list : [...list, x]`. */
  function AddIfAbsent(s: seq<int>, x: int): (r: seq<int>)
    ensures x in r && (x in s ==> r == s) && (x !in s ==> r == s + [x])
  {
    if x in s then s else s + [x]
  }

  /**
   * The progress after an assessment result: the result is appended; on a
   * pass, `tierId + 1` and then `tierId` are unlocked (each only when absent)
   * and XP grows by 500.
   */
  function RecordAssessment(p: UserProgress, result: TierAssessmentResult): (q: UserProgress)
    ensures q.assessments == p.assessments + [result]
    ensures q.completedLessons == p.completedLessons && q.garden == p.garden
    ensures result.passed ==> result.tierId in q.unlockedTiers && result.tierId + 1 in q.unlockedTiers
    ensures result.passed ==> q.xp == p.xp + AssessmentXp
    ensures !result.passed ==> q.unlockedTiers == p.unlockedTiers && q.xp == p.xp
    ensures p.unlockedTiers <= q.unlockedTiers
    ensures forall t :: t in q.unlockedTiers ==> t in p.unlockedTiers || (result.passed && (t == result.tierId || t == result.tierId + 1))
  {
    var withResult := p.(assessments := p.assessments + [result]);
    if result.passed then
      withResult.(unlockedTiers := AddIfAbsent(AddIfAbsent(p.unlockedTiers, result.tierId + 1), result.tierId),
                  xp := p.xp + AssessmentXp)
    else withResult
  }

  /**
   * The invariants of a progress record the application maintains: no
   * lesson or tier listed twice, tier 1 unlocked, non-negative XP and one
   * tree per completed lesson.
   */
  predicate WellFormed(p: UserProgress) {
    && NoDuplicates(p.completedLessons)
    && NoDuplicates(p.unlockedTiers)
    && 1 in p.unlockedTiers
    && p.xp >= 0
    && p.garden.trees == |p.completedLessons|
  }

  lemma InitialIsWellFormed()
    ensures WellFormed(InitialUserProgress)
    ensures InitialUserProgress.completedLessons == [] && InitialUserProgress.unlockedTiers == [1]
    ensures InitialUserProgress.xp == 0 && InitialUserProgress.garden.trees == 0 && InitialUserProgress.assessments == []
  {
  }

  /** Completing a lesson twice has the effect of completing it once. */
  lemma CompleteLessonIdempotent(p: UserProgress, id: string)
    ensures CompleteLesson(CompleteLesson(p, id), id) == CompleteLesson(p, id)
  {
  }

  lemma {:induction false} CompleteLessonKeepsWellFormed(p: UserProgress, id: string)
    requires WellFormed(p)
    ensures WellFormed(CompleteLesson(p, id))
    ensures CompleteLesson(p, id).xp >= p.xp
  {
    if id !in p.completedLessons {
      var s := p.completedLessons + [id];
      forall i, j | 0 <= i < j < |s| ensures s[i] != s[j] {
        if j == |s| - 1 {
          assert s[i] in p.completedLessons;
        }
      }
    }
  }

  lemma {:induction false} AddIfAbsentNoDuplicates(s: seq<int>, x: int)
    requires NoDuplicates(s)
    ensures NoDuplicates(AddIfAbsent(s, x))
  {
    if x !in s {
      var r := s + [x];
      forall i, j | 0 <= i < j < |r| ensures r[i] != r[j] {
        if j == |r| - 1 {
          assert r[i] in s;
        }
      }
    }
  }

  lemma {:induction false} RecordAssessmentKeepsWellFormed(p: UserProgress, result: TierAssessmentResult)
    requires WellFormed(p)
    ensures WellFormed(RecordAssessment(p, result))
    ensures RecordAssessment(p, result).xp >= p.xp
  {
    AddIfAbsentNoDuplicates(p.unlockedTiers, result.tierId + 1);
    AddIfAbsentNoDuplicates(AddIfAbsent(p.unlockedTiers, result.tierId + 1), result.tierId);
  }

  /** Neither update ever locks a tier the dashboard showed as unlocked. */
  lemma UpdatesKeepTiersUnlocked(p: UserProgress, id: string, result: TierAssessmentResult, tierId: int)
    ensures IsTierUnlocked(p, tierId) ==> IsTierUnlocked(CompleteLesson(p, id), tierId)
    ensures IsTierUnlocked(p, tierId) ==> IsTierUnlocked(RecordAssessment(p, result), tierId)
  {
    UnlockMonotone(p, RecordAssessment(p, result), tierId);
  }

  /** After a passed assessment of tier t, the dashboard shows tier t+1 unlocked and tier t mastered. */
  lemma PassUnlocksNextTier(p: UserProgress, result: TierAssessmentResult)
    requires result.passed
    ensures IsTierUnlocked(RecordAssessment(p, result), result.tierId + 1)
    ensures TierMastered(RecordAssessment(p, result), result.tierId)
  {
    var q := RecordAssessment(p, result);
    assert q.assessments[|p.assessments|] == result;
  }

  /** The progress after a run of assessment results, in order. */
  function RecordAll(p: UserProgress, results: seq<TierAssessmentResult>): UserProgress
    decreases |results|
  {
    if results == [] then p else RecordAll(RecordAssessment(p, results[0]), results[1..])
  }

  /**
   * The history is append-only: after any run of results it is the old
   * history followed by exactly those results, pass or fail.
   */
  lemma {:induction false} HistoryIsAppendOnly(p: UserProgress, results: seq<TierAssessmentResult>)
    ensures RecordAll(p, results).assessments == p.assessments + results
    ensures |RecordAll(p, results).assessments| == |p.assessments| + |results|
    decreases |results|
  {
    if results != [] {
      HistoryIsAppendOnly(RecordAssessment(p, results[0]), results[1..]);
      assert p.assessments + [results[0]] + results[1..] == p.assessments + results;
    }
  }

  /**
   * The scenario of a new learner: completing lesson "l1_un" gives 100 XP
   * and one tree; completing it again changes nothing. A passed tier-1
   * exam then unlocks tier 2 and adds 500 XP.
   */
  lemma NewLearnerScenario(result: TierAssessmentResult)
    requires result.tierId == 1 && result.passed
    ensures var once := CompleteLesson(InitialUserProgress, "l1_un");
            && once.xp == 100 && once.completedLessons == ["l1_un"] && once.garden.trees == 1
            && CompleteLesson(once, "l1_un") == once
            && RecordAssessment(once, result).unlockedTiers == [1, 2]
            && RecordAssessment(once, result).xp == 600
  {
  }
}
