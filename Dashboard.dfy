/**
 * The dashboard's derived views over a user's progress: which tiers are
 * unlocked, which tiers are mastered, which lessons count as completed and
 * which roots a tier's assessment is generated from.
 */
module Dashboard {
  import opened Strings
  import opened Types
  import opened Constants

  /**
   * `assessments.find(a => a.tierId === tierId && a.passed)`: the first
   * passed result for the tier, if any.
   */
  function FindPassed(assessments: seq<TierAssessmentResult>, tierId: int): (r: Option<TierAssessmentResult>)
    ensures r.Some? <==> exists i :: 0 <= i < |assessments| && assessments[i].tierId == tierId && assessments[i].passed
    ensures r.Some? ==> r.value.tierId == tierId && r.value.passed && r.value in assessments
    ensures r.Some? ==> exists i :: 0 <= i < |assessments| && assessments[i] == r.value &&
                         forall j :: 0 <= j < i ==> !(assessments[j].tierId == tierId && assessments[j].passed)
  {
    if assessments == [] then None
    else if assessments[0].tierId == tierId && assessments[0].passed then Some(assessments[0])
    else
      var r := FindPassed(assessments[1..], tierId);
      assert forall i :: 1 <= i < |assessments| ==> assessments[i] == assessments[1..][i - 1];
      r
  }

  /** The tier shows "Tier Mastered": some assessment of it passed. */
  predicate TierMastered(p: UserProgress, tierId: int) {
    FindPassed(p.assessments, tierId).Some?
  }

  /**
   * `isTierUnlocked`: tier 1 always; another tier when it is listed in
   * `unlockedTiers` or the tier before it has a passed assessment.
   */
  predicate IsTierUnlocked(p: UserProgress, tierId: int) {
    if tierId == 1 then true
    else if tierId in p.unlockedTiers then true
    else FindPassed(p.assessments, tierId - 1).Some?
  }

  /** The unlock rule without the search: membership or a passed predecessor. */
  lemma IsTierUnlockedIff(p: UserProgress, tierId: int)
    ensures IsTierUnlocked(p, 1)
    ensures tierId != 1 ==>
      (IsTierUnlocked(p, tierId) <==>
         tierId in p.unlockedTiers ||
         exists i :: 0 <= i < |p.assessments| && p.assessments[i].tierId == tierId - 1 && p.assessments[i].passed)
  {
  }

  /**
   * Monotonicity: growing `unlockedTiers` (as a set) and extending the
   * assessment history never locks a tier that was unlocked.
   */
  lemma {:induction false} UnlockMonotone(p: UserProgress, q: UserProgress, tierId: int)
    requires forall t :: t in p.unlockedTiers ==> t in q.unlockedTiers
    requires p.assessments <= q.assessments
    ensures IsTierUnlocked(p, tierId) ==> IsTierUnlocked(q, tierId)
    ensures TierMastered(p, tierId) ==> TierMastered(q, tierId)
  {
    PassedPersists(p.assessments, q.assessments, tierId - 1);
    PassedPersists(p.assessments, q.assessments, tierId);
  }

  /** A passed result stays findable when the history is extended. */
  lemma PassedPersists(a: seq<TierAssessmentResult>, b: seq<TierAssessmentResult>, tierId: int)
    requires a <= b
    ensures FindPassed(a, tierId).Some? ==> FindPassed(b, tierId).Some?
  {
    if FindPassed(a, tierId).Some? {
      var i :| 0 <= i < |a| && a[i].tierId == tierId && a[i].passed;
      assert b[i] == a[i];
    }
  }

  /**
   * `isCompleted`: the lesson id is in `completedLessons`, or its tier has a
   * passed assessment (which marks every lesson of the tier done).
   */
  predicate IsLessonCompleted(p: UserProgress, tierId: int, lesson: Lesson) {
    lesson.id in p.completedLessons || TierMastered(p, tierId)
  }

  /** A lesson shows as done iff its id was completed or some assessment of its tier passed. */
  lemma LessonCompletedIff(p: UserProgress, tierId: int, lesson: Lesson)
    ensures IsLessonCompleted(p, tierId, lesson) <==>
      lesson.id in p.completedLessons ||
      exists i :: 0 <= i < |p.assessments| && p.assessments[i].tierId == tierId && p.assessments[i].passed
  {
  }

  /**
   * Completion is looked up by id, so completing one of the two "VAC"
   * lessons shows the other one as done too.
   */
  lemma SharedIdSharesCompletion(p: UserProgress, tier1Modules: seq<CourseModule>, tier2Modules: seq<CourseModule>)
    requires "l_vac" in p.completedLessons
    ensures IsLessonCompleted(p, 3, Tier3Modules[1].lessons[5])
    ensures IsLessonCompleted(p, 4, Tier4Modules[1].lessons[27])
  {
    VacLessonIdIsShared();
  }

  /** `tier.modules.flatMap(m => m.lessons.map(l => l.root))`. */
  function TierRoots(modules: seq<CourseModule>): (r: seq<string>)
    ensures |r| == LessonCount(modules)
  {
    if modules == [] then [] else Roots(modules[0].lessons) + TierRoots(modules[1..])
  }

  /** The number of lessons over a list of modules. */
  function LessonCount(modules: seq<CourseModule>): nat {
    if modules == [] then 0 else |modules[0].lessons| + LessonCount(modules[1..])
  }

  /** The roots of consecutive module lists are concatenated in order. */
  lemma {:induction false} TierRootsAppend(ms1: seq<CourseModule>, ms2: seq<CourseModule>)
    ensures TierRoots(ms1 + ms2) == TierRoots(ms1) + TierRoots(ms2)
  {
    if ms1 == [] {
      assert ms1 + ms2 == ms2;
    } else {
      assert (ms1 + ms2)[1..] == ms1[1..] + ms2;
      TierRootsAppend(ms1[1..], ms2);
    }
  }

  /** Every lesson of every module contributes its root. */
  lemma {:induction false} TierRootsContains(modules: seq<CourseModule>, m: nat, l: nat)
    requires m < |modules| && l < |modules[m].lessons|
    ensures modules[m].lessons[l].root in TierRoots(modules)
  {
    if m == 0 {
      assert Roots(modules[0].lessons)[l] == modules[0].lessons[l].root;
    } else {
      TierRootsContains(modules[1..], m - 1, l);
    }
  }

  /** The tier-4 exam is generated from exactly the advanced roots, in order. */
  lemma Tier4RootsAreAdvancedRoots(tier1Modules: seq<CourseModule>, tier2Modules: seq<CourseModule>)
    ensures TierRoots(Curriculum(tier1Modules, tier2Modules)[3].modules) == AdvancedRoots
  {
    Tier4SplitPartitions();
    var ms := Tier4Modules;
    assert ms[1..][1..] == [];
    assert TierRoots(ms[1..]) == Roots(ms[1].lessons) + TierRoots(ms[1..][1..]);
  }
}
