/**
 * The records of the learning application: word-part tiles, dissection
 * targets, lessons and the curriculum, drill questions, assessment results
 * and a user's progress. Optional fields of the source are `Option`s.
 */
module Types {
  import opened Strings

  /** The morphological role of a tile. */
  datatype PartType = PREFIX | ROOT | SUFFIX

  /** One morpheme tile of a word. */
  datatype WordPart = WordPart(text: string, partType: PartType, meaning: string, meaningVi: Option<string>)

  /** A derived word together with its ordered decomposition into parts. */
  datatype DissectionTarget = DissectionTarget(word: string, parts: seq<WordPart>, translation: string)

  /** A derived word shown in the derivation phase. */
  datatype RichDerivative = RichDerivative(word: string, definition: string, definitionVi: string,
                                           example: string, exampleVi: string)

  /**
   * The content fields of a lesson, every one of them optional. Generated
   * enrichment has the same shape and is merged over a lesson's content.
   */
  datatype Content = Content(
    meaning: Option<string>, meaningVi: Option<string>, phonetic: Option<string>,
    etymology: Option<string>, etymologyVi: Option<string>,
    funFact: Option<string>, funFactVi: Option<string>,
    metaphor: Option<string>, metaphorVi: Option<string>,
    dissectionPack: Option<seq<DissectionTarget>>,
    richDerivatives: Option<seq<RichDerivative>>)

  /** Content with no field present. */
  const NoContent := Content(None, None, None, None, None, None, None, None, None, None, None)

  /** A lesson: its identity fields and its (possibly enriched) content. */
  datatype Lesson = Lesson(id: string, title: string, root: string, tier: int, category: string, content: Content)

  /** A curriculum module: a titled list of lessons. */
  datatype CourseModule = CourseModule(id: string, title: string, description: string, lessons: seq<Lesson>)

  /** A curriculum tier: a titled list of modules. */
  datatype Tier = Tier(id: int, title: string, description: string, modules: seq<CourseModule>)

  /**
   * A JavaScript number as stored in an assessment result's `score`: an
   * integer percentage, or NaN when an exam with no questions is scored.
   */
  datatype Score = Pct(value: int) | NaN

  /** The outcome of one tier assessment, as appended to the history. */
  datatype TierAssessmentResult = TierAssessmentResult(tierId: int, score: Score, passed: bool,
                                                       feedback: string, date: string)

  datatype Garden = Garden(trees: int, level: int)

  /** The durable state of one user. */
  datatype UserProgress = UserProgress(xp: int, completedLessons: seq<string>, unlockedTiers: seq<int>,
                                       garden: Garden, assessments: seq<TierAssessmentResult>)

  datatype User = User(username: string, progress: UserProgress)

  /** A multiple-choice question of a lesson drill or a tier assessment. */
  datatype DrillQuestion = DrillQuestion(question: string, options: seq<string>, correctAnswer: string,
                                         explanation: string, explanationVi: Option<string>)

  /** What the content provider suggests after a failed drill. */
  datatype RemediationPlan = RemediationPlan(analysis: string, reviewPoints: seq<string>)

  /** No element occurs twice. */
  predicate NoDuplicates<T(==)>(s: seq<T>) {
    forall i, j :: 0 <= i < j < |s| ==> s[i] != s[j]
  }
}
