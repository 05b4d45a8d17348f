/**
 * The curriculum constants: the lesson-stub builder, the generated tiers 3
 * and 4 with the split of the advanced roots into two modules, the tier
 * list and the progress record of a new user.
 */
module Constants {
  import opened Strings
  import opened Types

  /**
   * A lesson stub. Its id is the override when that is a non-empty string
   * (JavaScript's `idOverride || ...`), and otherwise "l_" followed by the
   * lower-cased root; the title is "ROOT (meaning)".
   */
  function CreateLesson(root: string, meaning: string, category: string, tier: int,
                        idOverride: Option<string>): (l: Lesson)
    ensures l.root == root && l.category == category && l.tier == tier
    ensures l.content == NoContent.(meaning := Some(meaning))
    ensures l.title == root + " (" + meaning + ")"
    ensures |l.title| == |root| + |meaning| + 3 && l.title[..|root|] == root
    ensures idOverride.Some? && idOverride.value != "" ==> l.id == idOverride.value
    ensures idOverride.None? || idOverride.value == "" ==> l.id == "l_" + ToLower(root)
  {
    Lesson(id := if idOverride.Some? && idOverride.value != "" then idOverride.value
                 else "l_" + ToLower(root),
           title := root + " (" + meaning + ")",
           root := root, tier := tier, category := category,
           content := NoContent.(meaning := Some(meaning)))
  }

  /**
   * Without an override, two stubs get the same id exactly when their roots
   * agree after lower-casing: ids are not distinct by construction.
   */
  lemma DefaultIdsCollideIff(root1: string, root2: string, meaning: string, category: string, tier: int)
    ensures CreateLesson(root1, meaning, category, tier, None).id == CreateLesson(root2, meaning, category, tier, None).id
            <==> ToLower(root1) == ToLower(root2)
  {
    var a, b := ToLower(root1), ToLower(root2);
    if "l_" + a == "l_" + b {
      assert a == ("l_" + a)[2..] == ("l_" + b)[2..] == b;
    }
  }

  /**
   * A non-empty override is used as the id whatever the root; without one,
   * or with an empty one, the id is "l_" followed by the lower-cased root.
   */
  lemma OverrideWins(root: string, meaning: string, category: string, tier: int, id: string)
    requires id != ""
    ensures CreateLesson(root, meaning, category, tier, Some(id)).id == id
    ensures CreateLesson(root, meaning, category, tier, None).id == "l_" + ToLower(root)
    ensures CreateLesson(root, meaning, category, tier, Some("")) == CreateLesson(root, meaning, category, tier, None)
  {
  }

  /** The roots of a list of lessons, in order (`lessons.map(l => l.root)`). */
  function Roots(lessons: seq<Lesson>): (r: seq<string>)
    ensures |r| == |lessons|
    ensures forall i :: 0 <= i < |lessons| ==> r[i] == lessons[i].root
  {
    if lessons == [] then [] else [lessons[0].root] + Roots(lessons[1..])
  }

  /** `roots.map(r => createLesson(r, meaning, category, tier))`. */
  function LessonsFrom(roots: seq<string>, meaning: string, category: string, tier: int): (ls: seq<Lesson>)
    ensures |ls| == |roots|
    ensures forall i :: 0 <= i < |roots| ==> ls[i] == CreateLesson(roots[i], meaning, category, tier, None)
  {
    seq(|roots|, i requires 0 <= i < |roots| => CreateLesson(roots[i], meaning, category, tier, None))
  }

  /** Lessons built from a list of roots carry exactly those roots, in order. */
  lemma RootsOfLessonsFrom(roots: seq<string>, meaning: string, category: string, tier: int)
    ensures Roots(LessonsFrom(roots, meaning, category, tier)) == roots
  {
  }

  const StructureRoots: seq<string> := ["STRUCT", "FORM", "MORPH", "RUPT", "PON/POS", "FIG", "HAB", "JOIN/JUNCT"]
  const TimeSpaceRoots: seq<string> := ["CHRON", "TEMP", "LOC", "MEDI", "SURG", "VAC", "MIGR", "CED/CESS"]
  const PeopleRoots: seq<string> := ["DEMO", "POP", "ETHN", "ANTHROP", "GEN", "NAT", "PATR", "MATR"]
  const MindRoots: seq<string> := ["PSYCH", "PATH", "PHIL", "PHOB", "MEM", "COG", "SCI", "PUT"]

  const Tier3Modules: seq<CourseModule> := [
    CourseModule("m3_struct", "Structure & Form", "Building blocks of reality.",
                 LessonsFrom(StructureRoots, "Shape/Build", "Structure", 3)),
    CourseModule("m3_time", "Time & Space II", "Advanced spatial concepts.",
                 LessonsFrom(TimeSpaceRoots, "Time/Place", "Space", 3)),
    CourseModule("m3_people", "People & Society", "Understanding humanity.",
                 LessonsFrom(PeopleRoots, "People", "Society", 3)),
    CourseModule("m3_mind", "Mind & Feeling", "Psychology and emotion.",
                 LessonsFrom(MindRoots, "Mind/Feeling", "Psychology", 3))
  ]

  /** The advanced academic roots of tier 4. */
  const AdvancedRoots: seq<string> := [
    "VER/VERI", "FID", "GREG", "SEQ/SEC", "AMB", "BELL", "BENE", "MAL",
    "CID/CIS", "CLAM", "CLAUS/CLUD", "CRED", "CUR/CURS", "DOM", "DUR",
    "EQU", "FER", "FLOR", "FLU", "FORT", "FRACT/FRAG", "GRAD/GRESS",
    "GRAV", "HERB", "HOSP", "JUR/JUS", "LAB", "LEG/LECT", "LIBER",
    "LOG/LOGU", "MAR", "MICRO", "MEGA", "MIN", "NAV", "NOV",
    "OMNI", "OPER", "PAC", "PAN", "PEL", "PEND", "PHON", "PLAC",
    "PRIM", "PROTO", "QUER/QUIS", "RAD", "RECT", "REG", "RID/RIS",
    "SANCT", "SAT", "SCOP", "SIMIL", "SOL", "SON", "SOPH", "STRIN/STRICT",
    "TACT/TANG", "TELE", "TEN/TAIN", "TERM", "TORT", "TOX", "TURB",
    "URB", "VAC", "VAL", "VERB", "VERT/VERS", "VIA", "VINC/VICT", "VOL"
  ]

  /** The two tier-4 modules: the first 40 advanced roots, then the rest. */
  const Tier4Modules: seq<CourseModule> := [
    CourseModule("m4_adv", "Academic Mastery A-M", "Advanced roots for C1/C2 level usage.",
                 LessonsFrom(AdvancedRoots[..40], "Advanced", "Academic", 4)),
    CourseModule("m4_adv2", "Academic Mastery N-Z", "Completing the 200+ root collection.",
                 LessonsFrom(AdvancedRoots[40..], "Advanced", "Academic", 4))
  ]

  /** The two tier-4 modules together hold every advanced root once, in order. */
  lemma Tier4SplitPartitions()
    ensures |Tier4Modules| == 2
    ensures Roots(Tier4Modules[0].lessons) + Roots(Tier4Modules[1].lessons) == AdvancedRoots
  {
    RootsOfLessonsFrom(AdvancedRoots[..40], "Advanced", "Academic", 4);
    RootsOfLessonsFrom(AdvancedRoots[40..], "Advanced", "Academic", 4);
    assert AdvancedRoots[..40] + AdvancedRoots[40..] == AdvancedRoots;
  }

  /**
   * The curriculum. The hand-written module tables of tiers 1 and 2 are
   * data and are taken as parameters; tiers 3 and 4 are generated.
   */
  function Curriculum(tier1Modules: seq<CourseModule>, tier2Modules: seq<CourseModule>): (c: seq<Tier>)
    ensures |c| == 4
    ensures forall i :: 0 <= i < |c| ==> c[i].id == i + 1
    ensures c[0].modules == tier1Modules && c[1].modules == tier2Modules
  {
    [ Tier(1, "TIER 1: THE FOUNDATION", "Master the toolkit: Prefixes and Suffixes.", tier1Modules),
      Tier(2, "TIER 2: THE CORE 50", "High-frequency roots for survival.", tier2Modules),
      Tier(3, "TIER 3: EXPANSION 100", "Academic and Business vocabulary.", Tier3Modules),
      Tier(4, "TIER 4: MASTER 200", "Complete etymological mastery.", Tier4Modules) ]
  }

  /**
   * The root "VAC" is listed both in tier 3 and in tier 4, so two different
   * lessons of the curriculum share the id "l_vac".
   */
  lemma VacLessonIdIsShared()
    ensures Tier3Modules[1].lessons[5].id == "l_vac"
    ensures Tier4Modules[1].lessons[27].id == "l_vac"
    ensures Tier3Modules[1].lessons[5] != Tier4Modules[1].lessons[27]
  {
    assert TimeSpaceRoots[5] == "VAC";
    assert AdvancedRoots[40..][27] == AdvancedRoots[67] == "VAC";
    assert ToLower("VAC") == "vac";
  }

  /** The progress record of a newly created user. */
  const InitialUserProgress: UserProgress :=
    UserProgress(xp := 0, completedLessons := [], unlockedTiers := [1],
                 garden := Garden(trees := 0, level := 1), assessments := [])
}
