# Morphology Master: a verified model of the learning-progress engine

Morphology Master is a vocabulary trainer built around word roots. A learner logs in by
username. Their progress (XP, completed lessons, unlocked tiers, a garden with one tree per
lesson, and the history of tier assessments) sits in browser storage. The curriculum has
four tiers of lessons, and each lesson runs through five screens:

- discovery of the root;
- a dissection lab, where the learner drags part tiles into ordered slots to rebuild derived
  words;
- a derivation lab with a sandbox for the learner's own words;
- a ten-question drill, with remediation and a retry after a failed drill;
- a tier exam, which can unlock the next tier.

This project models that engine in Dafny and proves what its handlers promise:

| Dafny module | models |
|---|---|
| `Strings` | `Option` and JavaScript's `trim`/`toLowerCase` |
| `Types` | the records of `types.ts` |
| `Constants` | `createLesson`, the generated tiers 3 and 4, `CURRICULUM` and `INITIAL_USER_PROGRESS` |
| `Dashboard` | the dashboard's derived views: tier unlocking, "Tier Mastered", lesson completion and the exam's root list |
| `Progress` | the progress updates of the two completion handlers, as functions, with the invariants they keep |
| `Auth` | class `AuthStore`: the user database and the session slot |
| `App` | class `App`: login (with the login form's trim rule), logout, lesson selection and the two completion handlers |
| `Dissection` | class `DissectionLab`: the drag-and-drop engine |
| `LessonFlow` | class `LessonFlow`: hydration, the phase machine, the drill, remediation and the sandbox |
| `Assessment` | class `TierAssessment`: answering, submit gating, scoring, rounding and the results screen |

## Modelling choices

- **The content provider is an oracle.** Each of its answers is a parameter of the method
  that receives it:
  - the enrichment of `Hydrate`;
  - the questions of `DrillLoaded` and `QuestionsLoaded`;
  - the plan of `RemediationLoaded`;
  - the verdict of `SandboxCheck`;
  - the feedback of `SubmitExam`.

  Any answer may be one of the provider's fallback values, such as an empty question list.
  The enrichment fallback is `LessonFlow.EnrichmentFallback`.
- **Requests to the provider are returned.** Each lesson handler that sends one returns the
  request (`Hydrate`, `StartDrill`, `NextQuestion`, `SandboxCheck`), so its contract says when a
  request goes out and what it carries. Mounting the exam sends one request, for the tier id
  and roots that the `TierAssessment` constructor stores; `QuestionsLoaded` receives the answer.
- **Views bundle the fields a handler leaves alone.** `Drill()`, `Remediation()` and
  `Sandbox()` group the lesson flow's drill, remediation and sandbox fields. Each handler's
  contract says which views it keeps unchanged.
- **Shuffles are any permutation.** Every shuffle is a parameter constrained only to be a
  permutation (`multiset(shuffled) == multiset(parts)`).
- **Drag payloads are indices.** The payload of a drag is its source and index. The dragged
  tile is the one at that index in the bank or in the slots.
- **Percentages use exact integers.** `Math.round((c / n) * 100)` is the integer
  `(200c + n) / (2n)`; for `n == 0` it is the value `NaN` of the `Score` datatype. The results
  screen's `c / n >= 0.7` is `10c >= 7n`.
- **Progress records are values.** Each handler builds a new record instead of mutating a
  shared one.
- **`onComplete` calls are counted.** The callback `onComplete` of the lesson flow and of the
  dissection lab is a counter (`completeCalls`, `completions`).

## Model

| member | source | states |
|---|---|---|
| Strings.Trim | components/LoginScreen.tsx:15-16 | the trimmed name is no longer than the input and has no whitespace at either end |
| Strings.TrimCutsWhitespace | components/LoginScreen.tsx:15-16 | the input is the trimmed name with only whitespace before and after it |
| Strings.TrimBlankIff | components/LoginScreen.tsx:15 | a name trims to empty exactly when every character is whitespace |
| Strings.TrimIdempotent | components/LoginScreen.tsx:16 | trimming a trimmed name changes nothing |
| Strings.ToLower | constants.ts:6 | lower-casing keeps the length and maps each character |
| Strings.ToLowerIdempotent | constants.ts:6 | lower-casing twice is lower-casing once |
| Constants.CreateLesson | constants.ts:5-12 | the id is a non-empty override, otherwise "l_" + lower-cased root; the title is root + " (" + meaning + ")"; root, category and tier are copied and the meaning becomes the content's meaning |
| Constants.DefaultIdsCollideIff | constants.ts:6 | without an override, two stubs share an id exactly when their lower-cased roots agree |
| Constants.OverrideWins | constants.ts:6 | a non-empty override is the id; no override gives "l_" + lower-cased root, and an empty one is the same as none |
| Constants.Roots | components/Dashboard.tsx:82 | `lessons.map(l => l.root)`: one root per lesson, in order |
| Constants.LessonsFrom | constants.ts:150 | one stub per root, built by `createLesson`, in order |
| Constants.RootsOfLessonsFrom | constants.ts:150-168 | generated lessons carry exactly the roots they were generated from |
| Constants.Tier4SplitPartitions | constants.ts:192-198 | the tier-4 modules' roots, first then second, are exactly the advanced roots |
| Constants.Curriculum | constants.ts:202-207 | four tiers, with ids 1, 2, 3, 4 in order |
| Constants.VacLessonIdIsShared | constants.ts:184 | "VAC" (also constants.ts:141) gives two different lessons the same id "l_vac" |
| Dashboard.FindPassed | components/Dashboard.tsx:32 | finds a passed result of the tier iff one exists, and it is the first one |
| Dashboard.IsTierUnlockedIff | components/Dashboard.tsx:25-38 | tier 1 is always unlocked; another tier is unlocked iff it is listed or the previous tier has a passed result |
| Dashboard.UnlockMonotone | components/Dashboard.tsx:25-38 | growing the unlocked list and extending the history never locks a tier or un-masters one |
| Dashboard.PassedPersists | components/Dashboard.tsx:80 | a passed result stays found when the history is extended |
| Dashboard.LessonCompletedIff | components/Dashboard.tsx:139 | a lesson is done iff its id is completed or its tier has a passed result |
| Dashboard.SharedIdSharesCompletion | components/Dashboard.tsx:139 | completing "l_vac" marks both VAC lessons as done |
| Dashboard.TierRoots | components/Dashboard.tsx:82 | one root per lesson of the tier |
| Dashboard.TierRootsAppend | components/Dashboard.tsx:82 | the roots of joined module lists are the joined roots |
| Dashboard.TierRootsContains | components/Dashboard.tsx:82 | every lesson's root is in its tier's roots |
| Dashboard.Tier4RootsAreAdvancedRoots | components/Dashboard.tsx:82 | the tier-4 exam gets exactly the advanced roots, in order |
| Progress.CompleteLesson | App.tsx:41-55 | a new id is appended once with +100 XP and +1 tree; a known id leaves progress unchanged |
| Progress.AddIfAbsent | App.tsx:79-85 | the tier is present afterwards and is appended only when absent |
| Progress.RecordAssessment | App.tsx:68-90 | the result is appended; a pass unlocks the tier and the next and gives +500 XP; a fail changes neither; no unlocked tier is lost and no other is added |
| Progress.InitialIsWellFormed | constants.ts:209-218 | a new user has 0 XP, no lessons, tier 1 unlocked, no trees and no history, and is well formed |
| Progress.CompleteLessonIdempotent | App.tsx:47 | completing a lesson twice equals completing it once |
| Progress.CompleteLessonKeepsWellFormed | App.tsx:47-50 | lesson completion keeps ids distinct, tier 1 unlocked, XP non-negative and trees equal to lessons |
| Progress.AddIfAbsentNoDuplicates | App.tsx:79-85 | the guarded push never duplicates a tier |
| Progress.RecordAssessmentKeepsWellFormed | App.tsx:74-87 | recording a result keeps the progress well formed and never lowers XP |
| Progress.UpdatesKeepTiersUnlocked | App.tsx:41-90 | neither handler locks a tier the dashboard showed unlocked |
| Progress.PassUnlocksNextTier | App.tsx:76-87 | after a pass the next tier is unlocked and the tier shows mastered |
| Progress.HistoryIsAppendOnly | App.tsx:74 | after any run of results the history is the old one followed by those results |
| Progress.NewLearnerScenario | App.tsx:41-90 | first lesson gives 100 XP and a tree, a repeat changes nothing, a passed tier-1 exam unlocks [1, 2] with 600 XP |
| Auth.AuthStore.constructor | services/authService.ts:4-9 | storage is a user database and a session slot whose user mirrors the database |
| Auth.AuthStore.LoginUser | services/authService.ts:22-36 | a known user's stored progress is returned unchanged; an unknown one is stored with the initial record; the session becomes that user |
| Auth.AuthStore.LogoutUser | services/authService.ts:38-40 | the session is cleared and the database untouched |
| Auth.AuthStore.GetCurrentUser | services/authService.ts:42-45 | returns the session user, whose progress is the stored one |
| Auth.AuthStore.SaveUserProgress | services/authService.ts:47-54 | only the user's entry is overwritten, and the session is that user with that progress |
| App.App.constructor | App.tsx:16-23 | a stored session is resumed |
| App.App.Login | components/LoginScreen.tsx:13-18 | a blank name is rejected with nothing changed; otherwise the trimmed name is logged in, keeping a stored record or storing the initial progress for a new name |
| App.App.Logout | App.tsx:30-34 | nobody is logged in; stored progress stays |
| App.App.SelectLesson | App.tsx:36-39 | the selected lesson becomes active |
| App.App.HandleLessonComplete | App.tsx:41-61 | no lesson or no user changes nothing; a first completion updates and saves progress; a repeat saves nothing |
| App.App.HandleAssessmentComplete | App.tsx:68-94 | with a user, the result is recorded and saved whatever its outcome |
| Dissection.Filled | components/DissectionLab.tsx:81 | the slots hold at most one tile each |
| Dissection.FilledFullIff | components/DissectionLab.tsx:81 | the slots hold as many tiles as there are slots iff every slot is full |
| Dissection.FilledUpdate | components/DissectionLab.tsx:53 | writing a slot trades its old tile for the new one |
| Dissection.TakeOut | components/DissectionLab.tsx:52 | `splice(sourceIndex, 1)` shortens the bank by one and removes exactly one copy of the dragged tile |
| Dissection.Displaced | components/DissectionLab.tsx:49-54 | what goes back to the bank is exactly the tile the target slot held, if any |
| Dissection.BankToSlotConserves | components/DissectionLab.tsx:51-54 | a bank-to-slot drop keeps every tile in the bank or in a slot |
| Dissection.SwapConserves | components/DissectionLab.tsx:55-58 | a slot-to-slot drop keeps every tile in the bank or in a slot |
| Dissection.SlotToBankConserves | components/DissectionLab.tsx:70-76 | a slot-to-bank drop keeps every tile in the bank or in a slot |
| Dissection.BankEmptyIffFull | components/DissectionLab.tsx:182 | while tiles are conserved the bank is empty iff every slot is full |
| Dissection.Placed | components/DissectionLab.tsx:85 | the tiles of full slots in slot order |
| Dissection.SameTextsSameSpelling | components/DissectionLab.tsx:85 | tiles with the same texts position by position spell the same word |
| Dissection.MatchSpellsWord | components/DissectionLab.tsx:85 | a matched board spells the target word |
| Dissection.DistinctTextsMatchOnlyInOrder | components/DissectionLab.tsx:84-85 | with distinct part texts, a full board matches iff its tiles are exactly the parts in order |
| Dissection.SwapEqualTextsKeepsMatch | components/DissectionLab.tsx:85 | duplicate texts are compared by position, so swapping equal-text tiles keeps a match |
| Dissection.EmptySlots | components/DissectionLab.tsx:28 | `n` empty slots holding no tile |
| Dissection.BankDropKeepsInv | components/DissectionLab.tsx:51-62 | a bank-to-slot drop and the completion check keep the lab invariant: tiles conserved, a match recorded |
| Dissection.SwapKeepsInv | components/DissectionLab.tsx:55-62 | a slot-to-slot drop and the completion check keep the lab invariant |
| Dissection.SlotToBankKeepsInv | components/DissectionLab.tsx:70-77 | a slot-to-bank drop keeps the lab invariant: tiles conserved and the board no longer full |
| Dissection.DissectionLab.constructor | components/DissectionLab.tsx:11-22 | mounting sets up the first round when the pack has a word |
| Dissection.DissectionLab.SetupRound | components/DissectionLab.tsx:24-30 | the bank is the shuffled parts, one empty slot per part, success cleared |
| Dissection.DissectionLab.DropOnSlot | components/DissectionLab.tsx:41-63 | a drop without payload changes nothing; a bank drop fills the slot and returns the displaced tile; a slot drop swaps; success becomes old success or a match; tiles are conserved |
| Dissection.DissectionLab.MoveFromBank | components/DissectionLab.tsx:51-54 | the bank tile leaves the bank and fills the slot; the displaced tile is appended |
| Dissection.DissectionLab.MoveFromSlot | components/DissectionLab.tsx:55-58 | the two slots exchange contents and the bank is unchanged |
| Dissection.CheckCompletion | components/DissectionLab.tsx:80-90 | the flag after the check is the old flag or a full, text-by-text match; it is never cleared |
| Dissection.DissectionLab.DropOnBank | components/DissectionLab.tsx:65-78 | a slot's tile moves to the end of the bank and its slot empties; a bank drag changes nothing |
| Dissection.DissectionLab.IncorrectOrderMeansMismatch | components/DissectionLab.tsx:182 | the prompt shows iff the board is full with no success, and the board is then a mismatch |
| Dissection.DissectionLab.NextWord | components/DissectionLab.tsx:92-98 | before the last word the next round is set up; at the last word completion is signalled |
| Dissection.DissectionLab.EmptyPackNeverCompletes | components/DissectionLab.tsx:100 | with an empty pack there is no target and completion is never signalled |
| LessonFlow.Rank | components/LessonFlow.tsx:14 | the phases' order, PREPARING first |
| LessonFlow.StepIsForwardOrRetry | components/LessonFlow.tsx:14 | every phase change moves one phase forward except REMEDIATION to DRILL, and none re-enters PREPARING |
| LessonFlow.Over | components/LessonFlow.tsx:45 | a field present in the enrichment replaces the lesson's |
| LessonFlow.MergeIdempotent | components/LessonFlow.tsx:45 | merging twice is merging once; an empty enrichment changes nothing |
| LessonFlow.MergePatchWins | components/LessonFlow.tsx:45 | pack, derivatives and meaning come from the enrichment when it has them |
| LessonFlow.PackOf | components/LessonFlow.tsx:223 | the lab's pack is empty iff the lesson needs enrichment |
| LessonFlow.FallbackLeavesEmptyPack | services/geminiService.ts:61 | the enrichment fallback leaves a lesson with an empty pack |
| LessonFlow.EmptyPackBlocksDissection | components/LessonFlow.tsx:223 | a lab over such a pack never signals completion, so dissection never ends |
| LessonFlow.MeaningOrUnknown | components/LessonFlow.tsx:56 | an absent or empty meaning is sent as "Unknown" |
| LessonFlow.Correct | components/LessonFlow.tsx:331-332 | the number of correct drill picks, at most the number of picks |
| LessonFlow.CorrectPlusMissed | components/LessonFlow.tsx:327-337 | each answered question is counted once, as correct or as missed |
| LessonFlow.MissedAreWrongAnswers | components/LessonFlow.tsx:335 | each missed entry is the text of a question answered wrongly |
| LessonFlow.PickAppends | components/LessonFlow.tsx:331-336 | a pick adds to the correct count or to the missed list, never both |
| LessonFlow.DrillRuleAssumesTen | components/LessonFlow.tsx:351-354 | the pass rule is the 70% mark exactly with 10 questions; 2 of 5 passes and 16 of 20 fails |
| LessonFlow.UserCard | components/LessonFlow.tsx:87-93 | the learner's word with the provider's meanings and the fixed example texts |
| LessonFlow.LessonFlow.constructor | components/LessonFlow.tsx:16-38 | the lesson starts in PREPARING with an empty drill |
| LessonFlow.LessonFlow.Hydrate | components/LessonFlow.tsx:41-50 | an enrichment request for the root and category goes out iff the pack is absent or empty, and only then is the answer merged; the phase becomes DISCOVERY; the drill, remediation and sandbox views are unchanged |
| LessonFlow.LessonFlow.StartDissection | components/LessonFlow.tsx:209 | DISCOVERY to DISSECTION; lesson and all views unchanged |
| LessonFlow.LessonFlow.DissectionComplete | components/LessonFlow.tsx:224 | DISSECTION to DERIVATION, once the lab over the lesson's pack has signalled completion; lesson and all views unchanged |
| LessonFlow.LessonFlow.StartDrill | components/LessonFlow.tsx:53-61 | DERIVATION to DRILL (:284); a request goes out iff there are no questions and none is loading; remediation and sandbox unchanged |
| LessonFlow.LessonFlow.DrillLoaded | components/LessonFlow.tsx:56-59 | the questions arrive into a fresh drill; phase, lesson, remediation and sandbox unchanged |
| LessonFlow.LessonFlow.EmptyDrillStalls | components/LessonFlow.tsx:53-61 | after an empty answer the loading view stays: no question or answer is shown and no load is pending, so no handler's precondition holds |
| LessonFlow.LessonFlow.HandleOptionSelect | components/LessonFlow.tsx:327-337 | ignored once answered; otherwise the question locks and +10 or one missed text is added; phase, lesson, remediation and sandbox unchanged |
| LessonFlow.LessonFlow.AnswerQuestion | components/LessonFlow.tsx:329-336 | the accepted pick locks the question and adds +10 or one missed text, changing only the drill's selection, answer flag, score and missed list |
| LessonFlow.LessonFlow.NextQuestion | components/LessonFlow.tsx:339-359 | advances and clears the selection; at the last question it calls `onComplete` iff `10 - missed >= 7`, and otherwise enters REMEDIATION and requests a plan for the missed list; the plan and the sandbox are unchanged |
| LessonFlow.LessonFlow.FinishedDrillRule | components/LessonFlow.tsx:349-359 | a finished drill passes iff at most three questions were missed, for any number of questions |
| LessonFlow.LessonFlow.RemediationLoaded | components/LessonFlow.tsx:101-103 | the plan is shown and loading ends; phase, lesson, drill and sandbox unchanged |
| LessonFlow.LessonFlow.RetryDrill | components/LessonFlow.tsx:106-117 | score, index, selection and missed list reset; the questions are a permutation of the old ones; phase DRILL with no new request; the plan stays and the sandbox is unchanged |
| LessonFlow.LessonFlow.SetUserWord | components/LessonFlow.tsx:262 | in the derivation phase, the sandbox input holds the typed word; verdict, card, phase, lesson, drill and remediation unchanged |
| LessonFlow.LessonFlow.SandboxCheck | components/LessonFlow.tsx:72-96 | in the derivation phase, a whitespace-only word sends nothing and changes nothing; otherwise a request for the root and word goes out, the verdict is shown, and an accepted word with parts becomes the card |
| LessonFlow.LessonFlow.SelectNode | components/LessonFlow.tsx:240-249 | in the derivation phase, a tree node with a derivative card selects the first such card and clears the verdict; any other node changes nothing |
| LessonFlow.FindDerivative | components/LessonFlow.tsx:241 | found iff some card has the word; the result is the first such card |
| Assessment.CountRight | components/TierAssessment.tsx:39-41 | the number of questions answered with their correct option |
| Assessment.Truncate20 | components/TierAssessment.tsx:43 | the first 20 characters followed by "..." |
| Assessment.RightPlusMissed | components/TierAssessment.tsx:39-45 | every question is counted as right or missed, never both |
| Assessment.CountIsSetSize | components/TierAssessment.tsx:39-45 | the count is the size of the set of rightly answered indices |
| Assessment.ScoreExam | components/TierAssessment.tsx:36-45 | the loop's score is the count of right answers, its missed list the rest, and together they cover every question |
| Assessment.RoundedPercent | components/TierAssessment.tsx:47 | the percentage rounded half up, between 0 and 100; NaN without questions |
| Assessment.PassIff | components/TierAssessment.tsx:47-48 | saved pass iff 200c >= 139n |
| Assessment.SampleScores | components/TierAssessment.tsx:47-48 | 7 of 10 is 70 and passes, 6 of 10 is 60 and fails, no questions is NaN and fails |
| Assessment.DisplayedAgreesBelow20 | components/TierAssessment.tsx:77-78 | the displayed and the saved verdict agree for fewer than 20 questions |
| Assessment.DisplayedDisagrees16of23 | components/TierAssessment.tsx:78 | 16 of 23 is saved as a pass but displayed as a fail |
| Assessment.TierAssessment.constructor | components/TierAssessment.tsx:13-19 | mounting starts loading with no questions and no answers |
| Assessment.TierAssessment.QuestionsLoaded | components/TierAssessment.tsx:21-26 | the exam's questions arrive and loading ends, with no answers; the evaluation is unchanged |
| Assessment.TierAssessment.HandleSelect | components/TierAssessment.tsx:28-30 | the question's answer is set or overwritten and every other answer stays; the evaluation is unchanged |
| Assessment.TierAssessment.CanSubmitIffAllAnswered | components/TierAssessment.tsx:138 | submit is enabled iff every question is answered, so always with no questions |
| Assessment.TierAssessment.SubmitExam | components/TierAssessment.tsx:32-64 | the result carries the tier, the rounded percentage, pass iff it is at least 70, the feedback and the date |
| Assessment.TierAssessment.DisplayedScoreIsSavedScore | components/TierAssessment.tsx:77 | the results screen counts the same points as the saved score |

## Left out

- The content provider (services/geminiService.ts) is left out: prompts, network calls, JSON
  parsing and its random root sample. Its answers are method parameters.
- Randomness is left out. The shuffles in DissectionLab.tsx:26 and LessonFlow.tsx:115 are
  arbitrary permutations.
- Timers are left out: the delayed view changes and the delayed hand-over of the exam result.
  `SubmitExam` returns the result that the delay would deliver.
- Concurrency is left out. Each asynchronous handler is one atomic step, or a request followed
  by a separate arrival method. Stale or interleaved responses are not modelled, and neither
  are the transient `isVerifying`/`evaluating` spinners between request and arrival.
- View routing, speech synthesis, the bilingual toggle, the progress bar and styling are left
  out.
- WordTree.tsx, WordGarden.tsx and the rest of LoginScreen.tsx are rendering only and are not
  part of this model.
- Storage encoding is left out. localStorage and JSON are the two fields of `AuthStore`.
- Floating point is left out. The percentage arithmetic is exact. Double rounding could differ
  from it when `100c / n` lies just below a half, as with 29 of 200.
- Strings.ToLower: maps ASCII letters only. Non-ASCII case mapping is not modelled because the
  curriculum's roots are ASCII.
- Strings.Trim: works on characters, not UTF-16 code units; the whitespace set is that of
  JavaScript's `trim`.
- Assessment.Truncate20: counts characters, not UTF-16 code units, so it never splits a
  surrogate pair as `substring(0, 20)` can.
- Auth.AuthStore.LoginUser: treats every name absent from the database as a new user. In the
  source the database is a plain object, so a name such as "constructor", "toString" or
  "__proto__" finds an inherited `Object.prototype` value: nothing is stored and the session
  holds that value instead of a progress record. The model has no such inherited keys.
- Aliasing is left out. `{ ...progress }` copies are shallow, so the pushes in App.tsx:48-50
  and :74-86 mutate arrays shared with `INITIAL_USER_PROGRESS` and with earlier records. The
  model uses value semantics and does not reproduce that sharing.
- The data of tiers 1 and 2 is not part of this model. Their hand-written module tables are
  parameters of `Constants.Curriculum`; tiers 3 and 4 are generated exactly.
- Enrichment only merges the content fields. Identity fields returned by the provider are not
  merged.

## Source behaviour the model keeps

These are modelled as the code behaves. Each is stated as a lemma or in the contract of the
member named:

- **An empty pack stalls a lesson.** The enrichment fallback leaves an empty pack, and the lab
  over it never completes. See `LessonFlow.FallbackLeavesEmptyPack`,
  `LessonFlow.EmptyPackBlocksDissection` and
  `Dissection.DissectionLab.EmptyPackNeverCompletes`.
- **An empty drill answer stalls the drill.** See `LessonFlow.LessonFlow.EmptyDrillStalls`.
- **The drill pass rule assumes 10 questions.** See `LessonFlow.DrillRuleAssumesTen` and
  `LessonFlow.LessonFlow.FinishedDrillRule`.
- **The results screen can contradict the saved result.** See
  `Assessment.DisplayedDisagrees16of23`. The two agree below 20 questions
  (`Assessment.DisplayedAgreesBelow20`).
- **A zero-question exam can be submitted and scores NaN.** See
  `Assessment.TierAssessment.CanSubmitIffAllAnswered` and `Assessment.SampleScores`.
- **Success in the dissection lab is sticky.** `Dissection.CheckCompletion` and
  `Dissection.DissectionLab.DropOnSlot` keep an earlier success even
  after the tiles are rearranged.
- **Two lessons share the id "l_vac".** See `Constants.VacLessonIdIsShared` and
  `Dashboard.SharedIdSharesCompletion`.
