/**
 * The app root: which screen is shown, which lesson is open, and the two
 * progress lists (completed and unlocked lesson ids) that every other screen
 * reads. The lists are updated only by finishing a lesson, which records it
 * as completed and unlocks the lesson after it in catalog order.
 *
 * The class works over its own `lessons` catalog, which the constructor binds
 * to `LESSONS`; the pure functions below take the catalog as a parameter.
 */
module App {
  import opened Types
  import opened Catalog

  /** The two progress lists, in insertion order. */
  datatype Progress = Progress(completed: seq<string>, unlocked: seq<string>)

  /** The progress the app starts with: nothing completed, only the first lesson open (App.tsx:11-12). */
  function InitialProgress(): Progress
  {
    Progress([], ["algorithms"])
  }

  /**
   * The progress after finishing lesson `id` (App.tsx:21-34): nothing changes
   * when `id` was already completed; otherwise `id` is appended to the
   * completed list, and the lesson after it in the catalog, if there is one
   * and it is not already unlocked, is appended to the unlocked list. An id
   * outside the catalog is still recorded as completed but unlocks nothing.
   */
  function Complete(catalog: seq<Lesson>, p: Progress, id: string): Progress
  {
    if id in p.completed then p
    else
      var i := FindIndex(catalog, id);
      var unlocked :=
        if i != -1 && i < |catalog| - 1 && catalog[i + 1].id !in p.unlocked
        then p.unlocked + [catalog[i + 1].id]
        else p.unlocked;
      Progress(p.completed + [id], unlocked)
  }

  /**
   * The invariant every sequence of completions keeps, whatever ids are
   * passed: no id listed twice, only catalog lessons unlocked, and the first
   * lesson always unlocked.
   */
  ghost predicate WellFormed(catalog: seq<Lesson>, p: Progress)
  {
    && 0 < |catalog|
    && NoDuplicates(p.completed)
    && NoDuplicates(p.unlocked)
    && (forall x :: x in p.unlocked ==> HasId(catalog, x))
    && catalog[0].id in p.unlocked
  }

  /**
   * The shape progress takes when lessons are finished only once they are
   * unlocked: the unlocked list is a non-empty prefix of the catalog's ids,
   * the completed list is the same prefix minus its last lesson, or, once the
   * last lesson is finished, the whole catalog.
   */
  ghost predicate Linear(ids: seq<string>, p: Progress)
  {
    && 0 < |p.unlocked|
    && p.unlocked <= ids
    && p.completed <= p.unlocked
    && |p.unlocked| <= |p.completed| + 1
    && (|p.completed| == |p.unlocked| ==> |p.unlocked| == |ids|)
  }

  /** The initial progress has the linear shape over the shipped catalog. */
  lemma InitialIsLinear()
    ensures Linear(Ids(LESSONS), InitialProgress())
    ensures WellFormed(LESSONS, InitialProgress())
  {
    CatalogIsValid();
    assert Ids(LESSONS)[..1] == ["algorithms"];
  }

  /** Finishing a lesson that is already completed changes nothing, so finishing any lesson twice is the same as once. */
  lemma CompleteIsIdempotent(catalog: seq<Lesson>, p: Progress, id: string)
    ensures id in p.completed ==> Complete(catalog, p, id) == p
    ensures id in Complete(catalog, p, id).completed
    ensures Complete(catalog, Complete(catalog, p, id), id) == Complete(catalog, p, id)
  {
  }

  /** The lists only grow, each by at most one id, and the completed one by exactly `id` when it was new. */
  lemma CompleteIsMonotone(catalog: seq<Lesson>, p: Progress, id: string)
    ensures p.completed <= Complete(catalog, p, id).completed
    ensures p.unlocked <= Complete(catalog, p, id).unlocked
    ensures |Complete(catalog, p, id).unlocked| <= |p.unlocked| + 1
    ensures id !in p.completed ==> Complete(catalog, p, id).completed == p.completed + [id]
  {
  }

  /**
   * Finishing the lesson at catalog position i, not the last, for the first
   * time leaves the next lesson unlocked, appending it only if it was not
   * unlocked already.
   */
  lemma CompleteUnlocksNext(catalog: seq<Lesson>, p: Progress, i: int)
    requires DistinctIds(catalog)
    requires 0 <= i < |catalog| - 1
    requires catalog[i].id !in p.completed
    ensures catalog[i + 1].id in Complete(catalog, p, catalog[i].id).unlocked
    ensures Complete(catalog, p, catalog[i].id).unlocked ==
      if catalog[i + 1].id in p.unlocked then p.unlocked else p.unlocked + [catalog[i + 1].id]
  {
    FindIndexOfPosition(catalog, i);
  }

  /** Finishing the catalog's last lesson, or an id outside the catalog, unlocks nothing. */
  lemma CompleteLastUnlocksNothing(catalog: seq<Lesson>, p: Progress, id: string)
    requires !HasId(catalog, id) || (0 < |catalog| && id == catalog[|catalog| - 1].id)
    requires DistinctIds(catalog)
    ensures Complete(catalog, p, id).unlocked == p.unlocked
  {
    if HasId(catalog, id) {
      FindIndexOfPosition(catalog, |catalog| - 1);
    }
  }

  /** Every completion, with any id, keeps the progress well formed. */
  lemma CompletePreservesWellFormed(catalog: seq<Lesson>, p: Progress, id: string)
    requires WellFormed(catalog, p)
    ensures WellFormed(catalog, Complete(catalog, p, id))
  {
    var r := Complete(catalog, p, id);
    if id !in p.completed {
      var i := FindIndex(catalog, id);
      if i != -1 && i < |catalog| - 1 {
        assert HasId(catalog, catalog[i + 1].id);
      }
      assert NoDuplicates(r.completed) by {
        forall a, b | 0 <= a < b < |r.completed|
          ensures r.completed[a] != r.completed[b]
        {
          if b == |p.completed| {
            assert r.completed[a] in p.completed;
          }
        }
      }
      assert NoDuplicates(r.unlocked) by {
        forall a, b | 0 <= a < b < |r.unlocked|
          ensures r.unlocked[a] != r.unlocked[b]
        {
          if b == |p.unlocked| {
            assert r.unlocked[a] in p.unlocked;
          }
        }
      }
    }
  }

  /**
   * Every completed lesson stays unlocked, provided the lesson being finished
   * was unlocked: the only lessons the home screen opens.
   */
  lemma CompleteKeepsCompletedUnlocked(catalog: seq<Lesson>, p: Progress, id: string)
    requires forall x :: x in p.completed ==> x in p.unlocked
    requires id in p.unlocked
    ensures forall x :: x in Complete(catalog, p, id).completed ==> x in Complete(catalog, p, id).unlocked
  {
  }

  /** Under the linear shape the one unlocked lesson not yet completed is the newest unlocked one. */
  lemma PendingIsNewest(ids: seq<string>, p: Progress, id: string)
    requires Linear(ids, p)
    requires id in p.unlocked && id !in p.completed
    ensures |p.completed| + 1 == |p.unlocked|
    ensures p.unlocked == p.completed + [id]
    ensures ids[|p.completed|] == id
  {
    var m := |p.unlocked|;
    assert p.unlocked == p.completed + [p.unlocked[m - 1]];
  }

  /**
   * Finishing an unlocked lesson keeps the linear shape: finishing an already
   * completed one changes nothing, and finishing the newest unlocked lesson
   * moves the frontier one lesson on, so that what was unlocked is now
   * completed and the next catalog lesson, if any, is unlocked.
   */
  lemma {:induction false} CompletePreservesLinear(catalog: seq<Lesson>, p: Progress, id: string)
    requires DistinctIds(catalog)
    requires Linear(Ids(catalog), p)
    requires id in p.unlocked
    ensures Linear(Ids(catalog), Complete(catalog, p, id))
    ensures id in p.completed ==> Complete(catalog, p, id) == p
    ensures id !in p.completed ==>
      && Complete(catalog, p, id).completed == p.unlocked
      && Complete(catalog, p, id).unlocked ==
           Ids(catalog)[..if |p.unlocked| < |catalog| then |p.unlocked| + 1 else |catalog|]
  {
    var ids := Ids(catalog);
    IdsOfDistinct(catalog);
    if id !in p.completed {
      PendingIsNewest(ids, p, id);
      var m := |p.unlocked|;
      FindIndexOfPosition(catalog, m - 1);
      assert FindIndex(catalog, id) == m - 1;
      if m < |ids| {
        assert p.unlocked == ids[..m];
        InPrefixOfDistinct(ids, m, m);
        assert ids[..m + 1] == ids[..m] + [ids[m]];
      } else {
        assert p.unlocked == ids[..|catalog|];
      }
    }
  }

  /**
   * Under the linear shape every lesson falls in exactly one place: the
   * completed prefix, the single newest unlocked lesson, or the locked rest.
   */
  lemma LinearIsPrefixSplit(ids: seq<string>, p: Progress)
    requires Linear(ids, p)
    ensures p.unlocked == ids[..|p.unlocked|]
    ensures p.completed == ids[..|p.completed|]
    ensures |p.completed| == |p.unlocked| || |p.completed| + 1 == |p.unlocked|
    ensures forall x :: x in p.completed ==> x in p.unlocked
  {
  }

  /**
   * A catalog of two lessons, A then B: finishing A unlocks B,
   * finishing B afterwards completes both and unlocks nothing more, and
   * finishing A again changes nothing.
   */
  lemma TwoLessonScenario(questionsA: seq<Question>, questionsB: seq<Question>)
    ensures var catalog := [Lesson("A", "A", [], questionsA), Lesson("B", "B", [], questionsB)];
      var afterA := Complete(catalog, Progress([], ["A"]), "A");
      && afterA == Progress(["A"], ["A", "B"])
      && Complete(catalog, afterA, "B") == Progress(["A", "B"], ["A", "B"])
      && Complete(catalog, Complete(catalog, afterA, "B"), "A") == Progress(["A", "B"], ["A", "B"])
  {
    var catalog := [Lesson("A", "A", [], questionsA), Lesson("B", "B", [], questionsB)];
    FindIndexOfPosition(catalog, 0);
    FindIndexOfPosition(catalog, 1);
  }

  /** The app root's state (App.tsx:8-12). */
  class App {
    /** The lesson catalog in display order. */
    const lessons: seq<Lesson>
    var currentScreen: Screen
    var currentLessonId: Option<string>
    var completedLessons: seq<string>
    var unlockedLessons: seq<string>

    /** The two progress lists as one value. */
    function CurrentProgress(): Progress
      reads this
    {
      Progress(completedLessons, unlockedLessons)
    }

    /** The catalog is well formed and the progress keeps the invariant every completion preserves. */
    ghost predicate Valid()
      reads this
    {
      ValidCatalog(lessons) && WellFormed(lessons, CurrentProgress())
    }

    /** Progress has the shape reached by finishing only unlocked lessons. */
    ghost predicate IsLinear()
      reads this
    {
      Linear(Ids(lessons), CurrentProgress())
    }

    /** Mount: the home screen, no lesson open, only the first lesson unlocked (App.tsx:9-12). */
    constructor ()
      ensures lessons == LESSONS
      ensures currentScreen == HomeScreen && currentLessonId == None
      ensures CurrentProgress() == InitialProgress()
      ensures Valid() && IsLinear()
    {
      lessons := LESSONS;
      currentScreen := HomeScreen;
      currentLessonId := None;
      completedLessons := [];
      unlockedLessons := ["algorithms"];
      new;
      CatalogIsValid();
      InitialIsLinear();
    }

    /**
     * `handleNavigate` (App.tsx:14-19): the screen always changes; the open
     * lesson changes only when navigating to the lesson screen with a
     * non-empty id, and is otherwise kept.
     */
    method HandleNavigate(screen: Screen, lessonId: Option<string>)
      modifies this
      ensures currentScreen == screen
      ensures currentLessonId == if screen == LessonScreen && Truthy(lessonId) then lessonId else old(currentLessonId)
      ensures completedLessons == old(completedLessons) && unlockedLessons == old(unlockedLessons)
    {
      if screen == LessonScreen && Truthy(lessonId) {
        currentLessonId := lessonId;
      }
      currentScreen := screen;
    }

    /**
     * `handleLessonComplete` (App.tsx:21-36): the progress becomes
     * `Complete` of the old progress and the app returns home. Well-formedness
     * holds for any id (`CompletePreservesWellFormed`); the linear shape
     * survives finishing an unlocked lesson (`CompletePreservesLinear`).
     */
    method HandleLessonComplete(lessonId: string)
      requires Valid()
      modifies this
      ensures Valid()
      ensures CurrentProgress() == Complete(lessons, old(CurrentProgress()), lessonId)
      ensures currentScreen == HomeScreen
      ensures currentLessonId == old(currentLessonId)
    {
      ghost var before := CurrentProgress();
      if lessonId !in completedLessons {
        completedLessons := completedLessons + [lessonId];
        var next := FindIndex(lessons, lessonId);
        if next != -1 && next < |lessons| - 1 && lessons[next + 1].id !in unlockedLessons {
          unlockedLessons := unlockedLessons + [lessons[next + 1].id];
        }
      }
      currentScreen := HomeScreen;
      assert CurrentProgress() == Complete(lessons, before, lessonId);
      CompletePreservesWellFormed(lessons, before, lessonId);
    }
  }
}
