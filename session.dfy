/**
 * The app root and the screen it renders, wired together as in App.tsx:
 * the home screen's node clicks and the quiz's completion report go to the
 * root's handlers, and the quiz screen is mounted afresh with the root's
 * open lesson whenever the lesson screen is entered. Every user action on
 * the lesson screen or the home path is one `Step`, and every step keeps
 * the whole app's invariant: the progress has the linear shape (so every
 * completed lesson is unlocked), and the lesson on screen is an unlocked
 * catalog lesson.
 */
module Session {
  import opened Types
  import opened Catalog
  import opened App
  import opened HomeView
  import opened LessonView
  import PetOasis

  /** One user action on the shell, the home path or the quiz screen. */
  datatype Action =
    | ClickLessonNode(index: int)   // a node on the home path (components/HomeView.tsx:149-199)
    | OpenPetOasis                  // the pet card's button (components/HomeView.tsx:105)
    | BackHome                      // the back buttons (components/LessonView.tsx:96, components/PetOasisView.tsx:73)
    | StartChallenge                // components/LessonView.tsx:143
    | BackToReading                 // components/LessonView.tsx:160
    | PickOption(option: string)    // components/LessonView.tsx:298
    | CheckAnswer(reply: Reply)     // components/LessonView.tsx:334
    | NextQuestion                  // components/LessonView.tsx:272

  /**
   * The whole app's invariant. The root is valid and its progress linear;
   * on the lesson screen the open lesson is an unlocked catalog lesson and
   * the mounted quiz view shows it, over the same catalog.
   */
  ghost predicate Consistent(app: App, view: LessonView?)
    reads app, view
  {
    && app.Valid()
    && app.IsLinear()
    && (app.currentScreen == LessonScreen ==>
          && app.currentLessonId.Some?
          && app.currentLessonId.value in app.unlockedLessons
          && view != null
          && view.lessons == app.lessons
          && view.lessonId == app.currentLessonId
          && view.Valid())
  }

  /** The app as first shown: the root mounted on the home screen (App.tsx:8-12). */
  method Start() returns (app: App)
    ensures fresh(app)
    ensures app.currentScreen == HomeScreen
    ensures app.CurrentProgress() == InitialProgress()
    ensures Consistent(app, null)
  {
    app := new App();
  }

  /**
   * The lesson the quiz view shows is the one the root opened, so the id the
   * quiz reports on finishing is that unlocked lesson's id.
   */
  lemma ViewShowsOpenLesson(app: App, view: LessonView)
    requires Consistent(app, view)
    requires app.currentScreen == LessonScreen
    ensures view.CurrentLesson().id == app.currentLessonId.value
  {
  }

  /**
   * In every consistent state every completed lesson is unlocked, and the
   * home path shows at most one next lesson, and one exactly while a lesson
   * remains to be completed.
   */
  lemma ConsistentProgress(app: App, view: LessonView?)
    requires Consistent(app, view)
    ensures forall x :: x in app.completedLessons ==> x in app.unlockedLessons
    ensures |app.completedLessons| < |app.lessons| <==>
      exists i :: 0 <= i < |app.lessons| && Status(app.completedLessons, app.unlockedLessons, app.lessons[i].id) == Next
  {
    LinearIsPrefixSplit(Ids(app.lessons), app.CurrentProgress());
    OneNextNode(app.lessons, app.CurrentProgress());
  }

  /**
   * Finishing a lesson for the first time adds twelve to the streak, one
   * hundred and fifty gems and one hundred points; finishing it again adds
   * nothing (components/HomeView.tsx:55, 61; components/PetOasisView.tsx:85).
   */
  lemma RewardsAfterCompletion(catalog: seq<Lesson>, p: Progress, id: string)
    ensures StreakCount(Complete(catalog, p, id).completed) ==
      StreakCount(p.completed) + (if id in p.completed then 0 else 12)
    ensures GemCount(Complete(catalog, p, id).completed) ==
      GemCount(p.completed) + (if id in p.completed then 0 else 150)
    ensures PetOasis.NeuralPoints(|Complete(catalog, p, id).completed|) ==
      PetOasis.NeuralPoints(|p.completed|) + (if id in p.completed then 0 else 100)
  {
  }

  /**
   * The pet screen, given the root's counts (App.tsx:58-62), announces the
   * maximum level exactly when every catalog lesson is completed, which is
   * exactly when the home screen's chest and title say so; until then its
   * dots fill one per completed lesson.
   */
  lemma {:induction false} PetSummaryMeaning(app: App, view: LessonView?)
    requires Consistent(app, view)
    ensures PetOasis.RemainingText(|app.lessons|, |app.completedLessons|) == "Max Level Reached!"
      <==> forall i :: 0 <= i < |app.lessons| ==> app.lessons[i].id in app.completedLessons
    ensures PetOasis.RemainingText(|app.lessons|, |app.completedLessons|) == "Max Level Reached!"
      <==> EvolutionTitle(app.completedLessons, app.lessons) == "Sparky is Fully Evolved!"
    ensures PetOasis.FilledCount(PetOasis.ProgressDots(|app.lessons|, |app.completedLessons|)) == |app.completedLessons|
  {
    LinearIsPrefixSplit(Ids(app.lessons), app.CurrentProgress());
    BonusMeansAllCompleted(app.lessons, app.CurrentProgress());
    PetOasis.RemainingTextMeaning(|app.lessons|, |app.completedLessons|);
    PetOasis.ProgressDotsFilled(|app.lessons|, |app.completedLessons|);
  }

  /**
   * One user action. Actions whose control is not on the current screen
   * (or is disabled there) change nothing. The returned view is the quiz
   * view mounted afterwards, if the lesson screen is showing.
   */
  method Step(app: App, view: LessonView?, action: Action) returns (next: LessonView?)
    requires Consistent(app, view)
    modifies app, view
    ensures Consistent(app, next)
    ensures app.CurrentProgress() == old(app.CurrentProgress()) ||
      (old(app.currentScreen) == LessonScreen &&
       app.CurrentProgress() == Complete(app.lessons, old(app.CurrentProgress()), old(app.currentLessonId).value))
  {
    next := view;
    match action {
      case ClickLessonNode(index) =>
        if app.currentScreen == HomeScreen && 0 <= index < |app.lessons| {
          var id := app.lessons[index].id;
          var target := NodeClick(Status(app.completedLessons, app.unlockedLessons, id), id);
          if target.Some? {
            assert HasId(app.lessons, id);
            app.HandleNavigate(LessonScreen, target);
            next := new LessonView(app.lessons, app.currentLessonId);
          }
        }
      case OpenPetOasis =>
        if app.currentScreen == HomeScreen {
          app.HandleNavigate(PetOasisScreen, None);
        }
      case BackHome =>
        if app.currentScreen == PetOasisScreen || (app.currentScreen == LessonScreen && view.phase == Reading) {
          app.HandleNavigate(HomeScreen, None);
          next := null;
        }
      case StartChallenge =>
        if app.currentScreen == LessonScreen && view.phase == Reading {
          view.StartQuiz();
        }
      case BackToReading =>
        if app.currentScreen == LessonScreen && view.phase == Quiz {
          view.ShowReading();
        }
      case PickOption(option) =>
        if app.currentScreen == LessonScreen && view.phase == Quiz && view.feedback.None?
          && option in view.CurrentQuestion().options
        {
          view.SelectOption(option);
        }
      case CheckAnswer(reply) =>
        if app.currentScreen == LessonScreen && view.phase == Quiz && view.feedback.None? && !view.CheckDisabled() {
          view.HandleCheckAnswer(reply);
        }
      case NextQuestion =>
        if app.currentScreen == LessonScreen && view.phase == Quiz && view.feedback.Some? {
          ViewShowsOpenLesson(app, view);
          var finished := view.HandleNextQuestion();
          if finished.Some? {
            CompletePreservesLinear(app.lessons, app.CurrentProgress(), finished.value);
            app.HandleLessonComplete(finished.value);
            next := null;
          }
        }
    }
  }
}
