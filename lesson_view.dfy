/**
 * The quiz engine of one lesson: a reading phase and a quiz phase, the index
 * of the current question, the option the learner has picked, and the
 * feedback shown after an answer is checked. Checking an answer grades it
 * locally by exact string comparison; the text-generation service only
 * supplies the wording of the feedback, so its outcome is a parameter.
 */
module LessonView {
  import opened Types
  import opened Catalog

  /** Which half of the lesson screen is shown. */
  datatype Phase = Reading | Quiz

  /** The verdict shown after checking an answer, and the tutor's words. */
  datatype Feedback = Feedback(correct: bool, message: string)

  /** Shown when the service answers with empty text (components/LessonView.tsx:76). */
  const EMPTY_REPLY_MESSAGE := "Connection interrupted! But I think you're on the right track."
  /** Shown for a right answer when the service could not be reached (components/LessonView.tsx:84). */
  const OFFLINE_CORRECT_MESSAGE := "Spot on! My circuits are buzzing with joy!"
  /** Shown for a wrong answer when the service could not be reached (components/LessonView.tsx:85). */
  const OFFLINE_INCORRECT_MESSAGE := "Not quite, but learning is an iterative process!"

  /**
   * The lesson shown for a requested id (components/LessonView.tsx:23): the catalog
   * lesson with that id, or the first lesson when the id is null or unknown.
   */
  function ResolveLesson(catalog: seq<Lesson>, lessonId: Option<string>): (l: Lesson)
    requires 0 < |catalog|
    ensures l in catalog && HasId(catalog, l.id)
    ensures lessonId.Some? && HasId(catalog, lessonId.value) ==> l.id == lessonId.value
    ensures lessonId.None? || !HasId(catalog, lessonId.value) ==> l == catalog[0]
  {
    if lessonId.None? then catalog[0]
    else
      var i := FindIndex(catalog, lessonId.value);
      if i == -1 then catalog[0] else catalog[i]
  }

  /**
   * The feedback for answering question q with `selected`, given what the
   * service returned (components/LessonView.tsx:51-86). The verdict is exact string
   * equality with the correct answer; the message is the service's text,
   * a fixed line when that text is empty, or a verdict-specific line when
   * the service failed.
   */
  function FeedbackFor(q: Question, selected: string, reply: Reply): Feedback
  {
    var correct := selected == q.correctAnswer;
    match reply
    case Ok(text) => Feedback(correct, OrElse(text, EMPTY_REPLY_MESSAGE))
    case Err => Feedback(correct, if correct then OFFLINE_CORRECT_MESSAGE else OFFLINE_INCORRECT_MESSAGE)
  }

  /**
   * Grading never depends on the service: whatever it returns, the verdict is
   * whether the selection equals the correct answer, and a failed call still
   * tells the learner the verdict through its fixed message.
   */
  lemma GradeIgnoresReply(q: Question, selected: string, r1: Reply, r2: Reply)
    ensures FeedbackFor(q, selected, r1).correct == FeedbackFor(q, selected, r2).correct
    ensures FeedbackFor(q, selected, r1).correct <==> selected == q.correctAnswer
    ensures r1.Ok? && r1.text != "" ==> FeedbackFor(q, selected, r1).message == r1.text
    ensures r1 == Ok("") ==> FeedbackFor(q, selected, r1).message == EMPTY_REPLY_MESSAGE
    ensures r1.Err? ==>
      FeedbackFor(q, selected, r1).message ==
      if selected == q.correctAnswer then OFFLINE_CORRECT_MESSAGE else OFFLINE_INCORRECT_MESSAGE
  {
  }

  /** In a well-formed question exactly one option is graded correct. */
  lemma ExactlyOneCorrectOption(q: Question, r: Reply)
    requires ValidQuestion(q)
    ensures exists i :: 0 <= i < |q.options| && FeedbackFor(q, q.options[i], r).correct
    ensures forall i, j ::
      0 <= i < |q.options| && 0 <= j < |q.options| &&
      FeedbackFor(q, q.options[i], r).correct && FeedbackFor(q, q.options[j], r).correct
      ==> i == j
  {
    var i :| 0 <= i < |q.options| && q.options[i] == q.correctAnswer;
    assert FeedbackFor(q, q.options[i], r).correct;
  }

  /** The quiz screen's state (components/LessonView.tsx:12-20). */
  class LessonView {
    /** The lesson catalog the screen looks lessons up in. */
    const lessons: seq<Lesson>
    /** The `lessonId` prop: the lesson the app asked for. */
    var lessonId: Option<string>
    var phase: Phase
    var currentQuestionIndex: int
    var selectedOption: Option<string>
    var isChecking: bool
    var feedback: Option<Feedback>

    /** The lesson on screen (components/LessonView.tsx:23). */
    function CurrentLesson(): Lesson
      reads this
      requires 0 < |lessons|
    {
      ResolveLesson(lessons, lessonId)
    }

    /** The catalog is well formed and the question index is inside the current lesson's quiz. */
    ghost predicate Valid()
      reads this
    {
      ValidCatalog(lessons) && 0 <= currentQuestionIndex < |CurrentLesson().questions|
    }

    /** The question on screen (components/LessonView.tsx:33). */
    function CurrentQuestion(): (q: Question)
      reads this
      requires Valid()
      ensures q in CurrentLesson().questions
      ensures ValidQuestion(q)
    {
      CurrentLesson().questions[currentQuestionIndex]
    }

    /** The current question is the lesson's last. */
    predicate OnLastQuestion()
      reads this
      requires Valid()
    {
      currentQuestionIndex == |CurrentLesson().questions| - 1
    }

    /** The label of the button under the feedback (components/LessonView.tsx:275). */
    function NextButtonLabel(): (s: string)
      reads this
      requires Valid()
      ensures s == "Finish Lesson" <==> OnLastQuestion()
    {
      if currentQuestionIndex < |CurrentLesson().questions| - 1 then "Next Question" else "Finish Lesson"
    }

    /** The check button is disabled while a check runs or nothing (or an empty string) is selected (components/LessonView.tsx:335). */
    predicate CheckDisabled()
      reads this
    {
      isChecking || !Truthy(selectedOption)
    }

    /**
     * Mount with the requested lesson: reading phase, first question, nothing
     * selected, no check running, no feedback (components/LessonView.tsx:13-20, 26-31).
     */
    constructor (catalog: seq<Lesson>, lessonId: Option<string>)
      requires ValidCatalog(catalog)
      ensures lessons == catalog && this.lessonId == lessonId
      ensures phase == Reading && currentQuestionIndex == 0
      ensures selectedOption == None && !isChecking && feedback == None
      ensures Valid()
    {
      lessons := catalog;
      this.lessonId := lessonId;
      phase := Reading;
      currentQuestionIndex := 0;
      selectedOption := None;
      isChecking := false;
      feedback := None;
    }

    /**
     * A new `lessonId` prop (components/LessonView.tsx:26-31): when it differs from the
     * old one the screen returns to reading the first question with nothing
     * selected and no feedback; the check flag is not reset.
     */
    method ChangeLesson(newId: Option<string>)
      requires Valid()
      modifies this
      ensures Valid()
      ensures lessonId == newId && isChecking == old(isChecking)
      ensures newId != old(lessonId) ==>
        phase == Reading && currentQuestionIndex == 0 && selectedOption == None && feedback == None
      ensures newId == old(lessonId) ==>
        phase == old(phase) && currentQuestionIndex == old(currentQuestionIndex) &&
        selectedOption == old(selectedOption) && feedback == old(feedback)
    {
      if newId != lessonId {
        lessonId := newId;
        phase := Reading;
        currentQuestionIndex := 0;
        selectedOption := None;
        feedback := None;
      }
    }

    /** "Start Challenge" (components/LessonView.tsx:143): show the quiz; the question index and selection are kept. */
    method StartQuiz()
      modifies this
      ensures phase == Quiz
      ensures lessonId == old(lessonId) && currentQuestionIndex == old(currentQuestionIndex)
      ensures selectedOption == old(selectedOption) && isChecking == old(isChecking) && feedback == old(feedback)
    {
      phase := Quiz;
    }

    /** The quiz header's back button (components/LessonView.tsx:160): show the reading again, keeping everything else. */
    method ShowReading()
      modifies this
      ensures phase == Reading
      ensures lessonId == old(lessonId) && currentQuestionIndex == old(currentQuestionIndex)
      ensures selectedOption == old(selectedOption) && isChecking == old(isChecking) && feedback == old(feedback)
    {
      phase := Reading;
    }

    /** Clicking an option (components/LessonView.tsx:298): it becomes the selection; feedback is not cleared. */
    method SelectOption(option: string)
      modifies this
      ensures selectedOption == Some(option)
      ensures lessonId == old(lessonId) && phase == old(phase) && currentQuestionIndex == old(currentQuestionIndex)
      ensures isChecking == old(isChecking) && feedback == old(feedback)
    {
      selectedOption := Some(option);
    }

    /**
     * `handleCheckAnswer` (components/LessonView.tsx:47-89) as one step: nothing happens
     * unless an option is selected; otherwise the feedback becomes the
     * grading of the selection against the current question and the check
     * flag ends cleared.
     */
    method HandleCheckAnswer(reply: Reply)
      requires Valid()
      modifies this
      ensures Valid()
      ensures !Truthy(old(selectedOption)) ==>
        isChecking == old(isChecking) && feedback == old(feedback)
      ensures Truthy(old(selectedOption)) ==>
        !isChecking && feedback == Some(FeedbackFor(CurrentQuestion(), old(selectedOption).value, reply))
      ensures lessonId == old(lessonId) && phase == old(phase)
      ensures currentQuestionIndex == old(currentQuestionIndex) && selectedOption == old(selectedOption)
    {
      if !Truthy(selectedOption) {
        return;
      }
      isChecking := true;
      feedback := None;
      feedback := Some(FeedbackFor(CurrentQuestion(), selectedOption.value, reply));
      isChecking := false;
    }

    /**
     * `handleNextQuestion` (components/LessonView.tsx:36-45): feedback and selection are
     * cleared; before the last question the index moves on, and on the last
     * one the lesson's own id is returned as the completion to report.
     */
    method HandleNextQuestion() returns (completed: Option<string>)
      requires Valid()
      modifies this
      ensures Valid()
      ensures feedback == None && selectedOption == None
      ensures lessonId == old(lessonId) && phase == old(phase) && isChecking == old(isChecking)
      ensures !old(OnLastQuestion()) ==> currentQuestionIndex == old(currentQuestionIndex) + 1 && completed == None
      ensures old(OnLastQuestion()) ==>
        currentQuestionIndex == old(currentQuestionIndex) && completed == Some(CurrentLesson().id)
      ensures completed.Some? ==> HasId(lessons, completed.value)
    {
      feedback := None;
      selectedOption := None;
      if currentQuestionIndex < |CurrentLesson().questions| - 1 {
        currentQuestionIndex := currentQuestionIndex + 1;
        completed := None;
      } else {
        completed := Some(CurrentLesson().id);
      }
    }
  }
}
