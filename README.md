# Ivan-App core in Dafny

Ivan-App is a small single-page app that teaches digital literacy. It has
three screens:

- **Home.** A winding path of lessons, each shown as completed, next or
  locked. Above it sit a streak counter and a gem counter, and below it a
  bonus chest that opens once every lesson is done.
- **Lesson.** A reading phase, then a multiple-choice quiz that is graded
  locally. An external text-generation service writes the tutor's feedback.
- **Pet Oasis.** A progress summary for the companion "Sparky", with the
  number of finished lessons shown as dots, plus a chat with the companion.

The app root holds the progress: the list of completed lesson ids and the
list of unlocked lesson ids. Finishing a lesson records it as completed and
unlocks the next lesson in catalog order. The catalog is a fixed list of
four lessons, each with fifteen questions.

This project models that core:

- the root's state and handlers, as a class (`App.App`);
- the quiz engine, as a class (`LessonView.LessonView`);
- the home screen's classification of nodes, its counters and its chest
  (`HomeView`);
- the pet screen's transcript, dots and remaining-lessons line (`PetOasis`);
- the catalog itself, transcribed (`Catalog.LESSONS`).

`Session.Step` wires the screens together the way the root renders them.
Every user action is one atomic step. The project proves that every step
keeps two things true:

- progress has a *linear* shape. The unlocked list is a prefix of the
  catalog's ids, and the completed list is that prefix minus its newest
  lesson (or the whole catalog);
- the lesson on screen is an unlocked catalog lesson.

Several facts follow from this: every completed lesson is unlocked, the home
path has at most one "next" node, and the chest and the pet screen's
"Max Level Reached!" line mean exactly that every lesson is completed.

Calls to the text-generation service become a parameter,
`Reply = Ok(text) | Err`:

- `Ok(text)` is a resolved request, and its text may be empty;
- `Err` covers both a client that could not be built (no API key) and a
  request that threw.

The JavaScript semantics the screens rely on are written out:

- truthiness of `string | null`;
- `||` on strings;
- `findIndex` returning -1;
- `find(...) || LESSONS[0]`;
- `String.prototype.trim`, with the ECMAScript white-space and
  line-terminator sets;
- decimal rendering of the count inside a template literal.

The model follows the code, including these points where the code does
something a reader might not expect:

- **Unknown lesson id.** `handleLessonComplete` appends whatever id it is
  given to the completed list (App.tsx:22-24). Only the unlock step looks
  the id up, so an id outside the catalog is recorded as completed and
  unlocks nothing (App.tsx:27-28).
- **Starting the quiz.** "Start Challenge" only switches the phase
  (components/LessonView.tsx:143). The question index is reset only when the lesson id
  changes (components/LessonView.tsx:26-31), so going back to reading and then
  restarting keeps the current question.
- **Picking an option.** Picking an option does not clear the feedback
  (components/LessonView.tsx:298). The options are only offered while no feedback is
  shown, and `Session.Step` follows that.
- **Progress as lists.** Progress is kept as two ordered lists, in insertion
  order, rather than as sets.

## Model

| member | source | states |
|---|---|---|
| Catalog.FindIndex | App.tsx:27 | `findIndex`: -1 exactly when no lesson has the id; otherwise a position whose lesson has the id, with no earlier lesson having it |
| Catalog.FindIndexOfPosition | App.tsx:27 | when ids are distinct, looking up the id of the lesson at position i gives i |
| Catalog.AlgorithmsWellFormed | data/lessons.ts:4-173 | lesson `algorithms` has three sections and fifteen questions; each question has three options, contains its correct answer once, and is numbered by its position from 1 |
| Catalog.EchoChambersWellFormed | data/lessons.ts:174-343 | the same facts for lesson `echo-chambers` |
| Catalog.DeepfakesWellFormed | data/lessons.ts:344-513 | the same facts for lesson `deepfakes` |
| Catalog.DataPrivacyWellFormed | data/lessons.ts:514-683 | the same facts for lesson `data-privacy` |
| Catalog.CatalogIds | data/lessons.ts:5-515 | the constant `Catalog.LESSONS`, the transcription of `LESSONS` (data/lessons.ts:3-684), is exactly the four lessons algorithms, echo-chambers, deepfakes, data-privacy, in that (unlock) order |
| Catalog.CatalogShape | data/lessons.ts:3-684 | every lesson of the catalog has three sections and fifteen well-formed questions |
| Catalog.CatalogIdsDistinct | data/lessons.ts:5-515 | no two lessons share an id and no id is empty |
| Catalog.FactsMakeValidLesson | data/lessons.ts:21-171 | a lesson with those facts has a question to show and every question can be graded |
| Catalog.CatalogIsValid | data/lessons.ts:3-684 | the shipped catalog is non-empty, has distinct non-empty ids and only runnable lessons, and starts with `algorithms`, the lesson unlocked at start (App.tsx:12) |
| App.InitialProgress | App.tsx:11-12 | the start progress: nothing completed, only `algorithms` unlocked; a plain definition, whose meaning (linear and well formed over the catalog) is stated by App.InitialIsLinear |
| App.Complete | App.tsx:21-34 | the progress after finishing a lesson; a plain definition whose behaviour is stated by App.CompleteIsIdempotent, App.CompleteIsMonotone, App.CompleteUnlocksNext, App.CompleteLastUnlocksNothing, App.CompletePreservesWellFormed and App.CompletePreservesLinear |
| App.InitialIsLinear | App.tsx:11-12 | the start state (nothing completed, `algorithms` unlocked) has the linear shape and is well formed over the shipped catalog |
| App.CompleteIsIdempotent | App.tsx:21-36 | finishing a completed lesson changes nothing; afterwards the id is always completed; finishing twice equals finishing once |
| App.CompleteIsMonotone | App.tsx:21-36 | both lists only grow, the unlocked list by at most one id, and a new id is appended to the completed list |
| App.CompleteUnlocksNext | App.tsx:26-33 | finishing the lesson at position i (not the last) for the first time leaves lesson i+1 unlocked, appending it only if it was not already unlocked |
| App.CompleteLastUnlocksNothing | App.tsx:28 | finishing the last lesson, or an id outside the catalog, leaves the unlocked list unchanged |
| App.CompletePreservesWellFormed | App.tsx:21-36 | for any id, completion keeps both lists free of duplicates, unlocks only catalog lessons and keeps the first lesson unlocked |
| App.CompleteKeepsCompletedUnlocked | App.tsx:21-36 | if every completed lesson was unlocked and the finished one was unlocked, every completed lesson is still unlocked |
| App.PendingIsNewest | App.tsx:22-31 | under the linear shape the one unlocked but uncompleted lesson is the newest unlocked one, at the catalog position equal to the completed count |
| App.CompletePreservesLinear | App.tsx:21-36 | finishing an unlocked lesson keeps the linear shape: finishing the newest unlocked lesson moves the frontier one lesson on, finishing an older one changes nothing |
| App.LinearIsPrefixSplit | App.tsx:11-12 | under the linear shape both lists are prefixes of the catalog's ids, they differ in length by at most one, and every completed lesson is unlocked |
| App.TwoLessonScenario | App.tsx:21-36 | with a two-lesson catalog A, B: finishing A unlocks B; then finishing B completes both and unlocks nothing; finishing A again changes nothing |
| App.App.constructor | App.tsx:9-12 | mount: home screen, no open lesson, nothing completed, only `algorithms` unlocked; the state is valid and linear |
| App.App.HandleNavigate | App.tsx:14-19 | the screen always becomes the target; the open lesson changes only for the lesson screen with a non-empty id; progress is untouched |
| App.App.HandleLessonComplete | App.tsx:21-36 | the progress becomes the completion of the old progress by that id, it stays valid, and the screen returns home |
| LessonView.ResolveLesson | components/LessonView.tsx:23 | the lesson shown is a catalog lesson: the one with the requested id, or the first lesson when the id is null or unknown |
| LessonView.FeedbackFor | components/LessonView.tsx:47-89 | the feedback for a checked answer; a plain definition whose meaning is stated by LessonView.GradeIgnoresReply and LessonView.ExactlyOneCorrectOption |
| LessonView.GradeIgnoresReply | components/LessonView.tsx:47-89 | the verdict is the same whatever the service returns and is exactly whether the selection equals the correct answer; a non-empty reply is shown as is and an empty one by the fixed fallback text; on failure the message is the fixed offline text for the verdict |
| LessonView.ExactlyOneCorrectOption | components/LessonView.tsx:54 | in a well-formed question exactly one option is graded correct |
| LessonView.LessonView.CurrentQuestion | components/LessonView.tsx:33 | the question shown belongs to the current lesson and can be graded |
| LessonView.LessonView.NextButtonLabel | components/LessonView.tsx:275 | the button reads "Finish Lesson" exactly on the last question |
| LessonView.LessonView.CheckDisabled | components/LessonView.tsx:335 | the check button's disabled test: a check is running or no non-empty option is selected; a plain definition that Session.Step uses as the guard for checking an answer |
| LessonView.LessonView.constructor | components/LessonView.tsx:13-20 | mount: reading phase, question 0, nothing selected, not checking, no feedback, valid |
| LessonView.LessonView.ChangeLesson | components/LessonView.tsx:26-31 | a different lesson id resets phase, question, selection and feedback (not the check flag); the same id changes nothing |
| LessonView.LessonView.StartQuiz | components/LessonView.tsx:143 | shows the quiz and keeps question index, selection and feedback |
| LessonView.LessonView.ShowReading | components/LessonView.tsx:160 | shows the reading and keeps everything else |
| LessonView.LessonView.SelectOption | components/LessonView.tsx:298 | the clicked option becomes the selection; feedback is kept |
| LessonView.LessonView.HandleCheckAnswer | components/LessonView.tsx:47-89 | with no selection (or an empty one) nothing changes; otherwise the feedback is the grading of the selection against the current question and the check flag ends cleared |
| LessonView.LessonView.HandleNextQuestion | components/LessonView.tsx:36-45 | clears feedback and selection; before the last question moves to the next one; on the last returns the lesson's own id (a catalog id) as the completion to report |
| HomeView.Status | components/HomeView.tsx:150-152 | a node's status from the two progress lists; a plain definition whose meaning under the linear shape is stated by HomeView.StatusByPosition and HomeView.OneNextNode |
| HomeView.ClickOpensOnlyUnlocked | components/HomeView.tsx:157-199 | while every completed lesson is unlocked, clicking a node opens its lesson exactly when it is unlocked, so the home screen never opens a locked lesson |
| HomeView.PositionClass | components/HomeView.tsx:15-29 | a node's horizontal offset; a plain definition whose pattern is stated by HomeView.PositionClassPattern |
| HomeView.PositionClassPattern | components/HomeView.tsx:15-29 | the offsets repeat every four nodes, use only centre, left and right, and no two neighbours share a side |
| HomeView.IsBonusUnlocked | components/HomeView.tsx:13 | the chest's count test; a plain definition whose meaning is stated by HomeView.BonusMeansAllCompleted |
| HomeView.StreakCount | components/HomeView.tsx:55 | the streak counter; a plain definition, its change on completion stated by Session.RewardsAfterCompletion |
| HomeView.GemCount | components/HomeView.tsx:61 | the gem counter; a plain definition, its change on completion stated by Session.RewardsAfterCompletion |
| HomeView.EvolutionTitleMeaning | components/HomeView.tsx:91 | under the linear shape the pet card's title says "Sparky is Fully Evolved!" exactly when every catalog lesson is completed |
| HomeView.StatusByPosition | components/HomeView.tsx:149-153 | under the linear shape a node's status follows from its position: the completed prefix, then the single next lesson, then locked |
| HomeView.OneNextNode | components/HomeView.tsx:149-153 | under the linear shape at most one node is next, and there is one exactly while some lesson is not completed |
| HomeView.BonusMeansAllCompleted | components/HomeView.tsx:13 | under the linear shape the chest's count test holds exactly when every catalog lesson is completed |
| HomeView.HomeView.constructor | components/HomeView.tsx:12 | mount: the bonus dialog is closed |
| HomeView.HomeView.ClickBonusChest | components/HomeView.tsx:213 | the dialog opens when the bonus is unlocked; otherwise nothing changes |
| HomeView.HomeView.CloseBonusModal | components/HomeView.tsx:250 | the dialog is closed |
| JsText.TrimStart | components/PetOasisView.tsx:34 | the result is a suffix of the input, everything dropped is white space, and a non-empty result starts with a non-space |
| JsText.TrimEnd | components/PetOasisView.tsx:34 | the result is a prefix of the input, everything dropped is white space, and a non-empty result ends with a non-space |
| JsText.Trim | components/PetOasisView.tsx:34 | `trim()`; a plain definition whose meaning is stated by JsText.TrimIsSlice and JsText.TrimEmptyIffBlank |
| JsText.TrimIsSlice | components/PetOasisView.tsx:34 | `trim()` returns a slice of its input from which only white space was cut at either end, and that neither starts nor ends with white space |
| JsText.TrimEmptyIffBlank | components/PetOasisView.tsx:34 | `trim()` gives the empty string exactly when the input is all white space |
| JsText.NatToStringDenotes | components/PetOasisView.tsx:111 | the decimal rendering is a non-empty run of digits, with no leading zero unless the number is 0, that denotes the number |
| PetOasis.ReplyText | components/PetOasisView.tsx:54-57 | the reply is never empty: the service's text when it is non-empty, the connection-error line when it is empty, the server-failure line when the call fails |
| PetOasis.SendKeepsTranscriptWellFormed | components/PetOasisView.tsx:33-61 | sending non-blank input keeps the transcript opening with the greeting, alternating companion and learner, with no blank learner message |
| PetOasis.ProgressDots | components/PetOasisView.tsx:103-107 | one dot per lesson |
| PetOasis.ProgressDotsFilled | components/PetOasisView.tsx:103-107 | dot i is filled exactly when i is below the completed count, so the filled count is the completed count clamped to the total |
| PetOasis.NeuralPoints | components/PetOasisView.tsx:85 | the points badge; a plain definition, its change on completion stated by Session.RewardsAfterCompletion |
| PetOasis.RemainingText | components/PetOasisView.tsx:111 | the line under the dots; a plain definition whose meaning is stated by PetOasis.RemainingTextMeaning |
| PetOasis.RemainingTextMeaning | components/PetOasisView.tsx:111 | the line says "Max Level Reached!" exactly when all lessons are completed; otherwise it is a run of digits, without a leading zero, that denotes the remaining count, followed by " more to fully evolve!" |
| PetOasis.PetOasisView.constructor | components/PetOasisView.tsx:18-22 | mount: only the greeting, empty input, not typing, well formed |
| PetOasis.PetOasisView.SetInput | components/PetOasisView.tsx:267 | the field holds what was typed; the transcript is untouched |
| PetOasis.PetOasisView.SendDisabled | components/PetOasisView.tsx:274 | the send button's disabled test: the trimmed input is empty or a reply is pending; a plain definition, and by JsText.TrimEmptyIffBlank it holds for blank input |
| PetOasis.PetOasisView.HandleSend | components/PetOasisView.tsx:33-61 | blank input changes nothing; otherwise the input is cleared, the untrimmed text and then exactly one companion reply are appended, typing ends cleared, and the transcript stays well formed |
| Session.Start | App.tsx:8-12 | the app starts on the home screen with the initial progress, in a consistent state |
| Session.ViewShowsOpenLesson | App.tsx:48-55 | in a consistent state on the lesson screen the quiz shows the root's open lesson, so the id it reports on finishing is that lesson's |
| Session.ConsistentProgress | components/HomeView.tsx:149-153 | in every consistent state every completed lesson is unlocked, and some node is next exactly while fewer lessons are completed than the catalog holds |
| Session.RewardsAfterCompletion | components/HomeView.tsx:55-61 | finishing a new lesson adds 12 to the streak, 150 gems and 100 neural points (components/PetOasisView.tsx:85); finishing it again adds nothing |
| Session.PetSummaryMeaning | App.tsx:58-62 | in a consistent state the pet screen says "Max Level Reached!" exactly when every catalog lesson is completed, and exactly when the home title says fully evolved; the filled dots count the completed lessons |
| Session.Step | App.tsx:38-73 | every user action keeps the app consistent (linear progress, open lesson unlocked and shown), and the progress either stays as it was or becomes the completion of the lesson that was open |

## Left out

- Floating-point percentages: the quiz progress bar (components/LessonView.tsx:34), the pet's battery and percentage (components/HomeView.tsx:83, 101; components/PetOasisView.tsx:25), the three labels chosen by whether that rounded percentage is 100 ("Fully Evolved" at components/PetOasisView.tsx:120, "Stage 3 • Master" at :135, "Maximum potential reached!" at :171), and the other display-only widths. They are rounded display values; those three labels are the only text that depends on them.
- Asynchronous behaviour. Each handler that awaits the service is one atomic step, so the model does not capture stale closures, interleavings, or a reply arriving after the user has left the screen. There is no cancellation in the code either.
- The intermediate `isChecking` / `isTyping` states while a request is pending. The model only records their values before and after the step, so `Session.Step` never sees a check in flight.
- The service call itself: `createGeminiInstance` reading the environment, the SDK, the model id and the prompt texts. All of these are folded into the `Reply` parameter. The file utils/gemini.ts is not part of this model.
- JSX layout, styling, `alert` pop-ups, `console.error`, `scrollIntoView`, and showing or hiding the chat overlay (components/PetOasisView.tsx:17), which affects no other state.
- components/chat.js: it is outside the core.
- The types `Post`, `LessonStatus` and `UserProgress` from types.ts: the core code does not use them.
- The reading sections' text is transcribed but is display-only, so no property mentions it.
- HomeView's reset of `showBonusModal` when the home screen is remounted: `Session.Step` does not include the home screen's own state.
- The pet chat inside `Session.Step`: the chat does not touch the root's progress, and `PetOasis.PetOasisView` models it on its own.
- LessonView.LessonView.constructor: the class takes its catalog as a parameter, while the app always passes `LESSONS`. Its contract assumes a valid catalog, which `Catalog.CatalogIsValid` proves for `LESSONS`.
- App.App.HandleLessonComplete: its contract states only well-formedness, not the linear shape. The linear shape holds only for an unlocked id, and `Session.Step` establishes it with `App.CompletePreservesLinear`.
- LessonView.LessonView.ChangeLesson: not reachable from `Session.Step`, because the root mounts a fresh quiz view each time the lesson screen is entered.
