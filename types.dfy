/**
 * The data model shared by every screen of the app: the screens of the
 * navigation shell, the lesson catalog's records, and the two small wrappers
 * that stand for JavaScript's nullable values and for the outcome of a call
 * to the external text-generation service.
 */
module Types {

  /** The screens the app shell switches between (types.ts:1-5). */
  datatype Screen = HomeScreen | LessonScreen | PetOasisScreen

  /** One reading section of a lesson: display-only text (types.ts:18-21). */
  datatype LessonSection = LessonSection(heading: string, text: string)

  /** A multiple-choice question; `correctAnswer` is compared with the chosen option by string equality (types.ts:23-28). */
  datatype Question = Question(id: int, question: string, options: seq<string>, correctAnswer: string)

  /** A lesson: its identity, title, reading sections and ordered quiz (types.ts:30-35). */
  datatype Lesson = Lesson(id: string, title: string, sections: seq<LessonSection>, questions: seq<Question>)

  /** A nullable value (`T | null` in the source). */
  datatype Option<T> = None | Some(value: T)

  /**
   * What one call to the text-generation service yields: `Ok(text)` when the
   * request resolved (the text may be empty), `Err` when building the client
   * failed (no API key configured) or the request threw.
   */
  datatype Reply = Ok(text: string) | Err

  /** JavaScript truthiness of a nullable string: neither null nor the empty string. */
  predicate Truthy(s: Option<string>)
  {
    s.Some? && s.value != ""
  }

  /** `a || b` on strings: `a` unless it is the empty string. */
  function OrElse(a: string, b: string): string
  {
    if a != "" then a else b
  }

  /** The list `s` holds no element twice. */
  predicate NoDuplicates<T(==)>(s: seq<T>)
  {
    forall i, j :: 0 <= i < j < |s| ==> s[i] != s[j]
  }

  /** In a list without duplicates, the element at position i lies in the first k elements exactly when i < k. */
  lemma InPrefixOfDistinct<T>(s: seq<T>, k: int, i: int)
    requires NoDuplicates(s)
    requires 0 <= k <= |s| && 0 <= i < |s|
    ensures s[i] in s[..k] <==> i < k
  {
    if s[i] in s[..k] {
      var j :| 0 <= j < k && s[..k][j] == s[i];
      assert s[j] == s[i];
    }
  }
}
