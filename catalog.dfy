/**
 * The lesson catalog: an ordered, read-only list of lessons fixed at start-up
 * (data/lessons.ts:3-684), and the well-formedness the quiz and the unlock
 * rule rely on.
 *
 * The catalog is transcribed field for field. Each section and each question
 * is written as its own function, and each lesson's lists are built with
 * `seq(n, k => ...)` from those functions, so that the verifier unfolds one
 * question's text only where a proof asks for that question. The functions
 * take the element's position as a parameter they do not use: written as
 * list literals, or as functions without parameters (which the verifier
 * unfolds like constants), the catalog's text enters every proof that
 * mentions LESSONS and those proofs exceed the verifier's resource limit.
 */
module Catalog {
  import opened Types

  /** The ids of a catalog, in catalog order. */
  function Ids(catalog: seq<Lesson>): (ids: seq<string>)
    ensures |ids| == |catalog|
    ensures forall i :: 0 <= i < |catalog| ==> ids[i] == catalog[i].id
  {
    seq(|catalog|, i requires 0 <= i < |catalog| => catalog[i].id)
  }

  /** A question the quiz can grade: some option is the correct answer, and no option appears twice. */
  predicate ValidQuestion(q: Question)
  {
    q.correctAnswer in q.options && NoDuplicates(q.options)
  }

  /** A lesson the quiz can run: at least one question, and every question valid. */
  predicate ValidLesson(l: Lesson)
  {
    && |l.questions| > 0
    && forall i :: 0 <= i < |l.questions| ==> ValidQuestion(l.questions[i])
  }

  /** No two lessons of the catalog share an id. */
  predicate DistinctIds(catalog: seq<Lesson>)
  {
    forall i, j :: 0 <= i < j < |catalog| ==> catalog[i].id != catalog[j].id
  }

  /** Some lesson of the catalog has this id. */
  predicate HasId(catalog: seq<Lesson>, id: string)
  {
    exists i :: 0 <= i < |catalog| && catalog[i].id == id
  }

  /** A catalog the app can run: not empty, lesson ids distinct and non-empty, every lesson valid. */
  predicate ValidCatalog(catalog: seq<Lesson>)
  {
    && |catalog| > 0
    && DistinctIds(catalog)
    && !HasId(catalog, "")
    && forall i :: 0 <= i < |catalog| ==> ValidLesson(catalog[i])
  }

  /** The id list of a catalog with distinct ids has no duplicates, and holds exactly the catalog's ids. */
  lemma IdsOfDistinct(catalog: seq<Lesson>)
    requires DistinctIds(catalog)
    ensures NoDuplicates(Ids(catalog))
  {
  }

  /**
   * `catalog.findIndex(l => l.id === id)`: the position of the first lesson
   * with this id, or -1 when there is none (App.tsx:27).
   */
  function FindIndex(catalog: seq<Lesson>, id: string): (r: int)
    ensures -1 <= r < |catalog|
    ensures r == -1 <==> !HasId(catalog, id)
    ensures r != -1 ==> catalog[r].id == id && forall j :: 0 <= j < r ==> catalog[j].id != id
  {
    if |catalog| == 0 then -1
    else if catalog[0].id == id then 0
    else
      var r := FindIndex(catalog[1..], id);
      if r == -1 then -1 else r + 1
  }

  /** With distinct ids, the lesson at position i is the one FindIndex finds for its id. */
  lemma FindIndexOfPosition(catalog: seq<Lesson>, i: int)
    requires DistinctIds(catalog)
    requires 0 <= i < |catalog|
    ensures FindIndex(catalog, catalog[i].id) == i
  {
  }

  /** What the catalog's data shows of every question: valid, three options, numbered by its position from 1. */
  predicate QuestionFacts(q: Question, position: int)
  {
    ValidQuestion(q) && |q.options| == 3 && q.id == position + 1
  }

  /** What the catalog's data shows of every lesson: three sections, fifteen questions, each with its facts. */
  predicate LessonFacts(sections: seq<LessonSection>, questions: seq<Question>)
  {
    && |sections| == 3
    && |questions| == 15
    && forall k :: 0 <= k < |questions| ==> QuestionFacts(questions[k], k)
  }

  /** The ordered catalog; its order is the unlock order (data/lessons.ts:3-684). */
  const LESSONS: seq<Lesson> := [
    Lesson("algorithms", "The Algorithm", AlgorithmsSections, AlgorithmsQuestions),
    Lesson("echo-chambers", "Echo Chambers", EchoChambersSections, EchoChambersQuestions),
    Lesson("deepfakes", "Deepfakes & AI", DeepfakesSections, DeepfakesQuestions),
    Lesson("data-privacy", "Data Privacy", DataPrivacySections, DataPrivacyQuestions)
  ]

  // ---- Lesson `algorithms` (data/lessons.ts:4-173) ----

  /** The reading sections of `algorithms`, in order (data/lessons.ts:8-19). */
  const AlgorithmsSections: seq<LessonSection> := seq(3, k =>
    if k == 0 then AlgorithmsSection1(k) else
    if k == 1 then AlgorithmsSection2(k) else
      AlgorithmsSection3(k))

  /** The quiz of `algorithms`, in order (data/lessons.ts:22-171). */
  const AlgorithmsQuestions: seq<Question> := seq(15, k =>
    if k == 0 then AlgorithmsQuestion01(k) else
    if k == 1 then AlgorithmsQuestion02(k) else
    if k == 2 then AlgorithmsQuestion03(k) else
    if k == 3 then AlgorithmsQuestion04(k) else
    if k == 4 then AlgorithmsQuestion05(k) else
    if k == 5 then AlgorithmsQuestion06(k) else
    if k == 6 then AlgorithmsQuestion07(k) else
    if k == 7 then AlgorithmsQuestion08(k) else
    if k == 8 then AlgorithmsQuestion09(k) else
    if k == 9 then AlgorithmsQuestion10(k) else
    if k == 10 then AlgorithmsQuestion11(k) else
    if k == 11 then AlgorithmsQuestion12(k) else
    if k == 12 then AlgorithmsQuestion13(k) else
    if k == 13 then AlgorithmsQuestion14(k) else
      AlgorithmsQuestion15(k))

  function AlgorithmsSection1(position: int): LessonSection {  // data/lessons.ts:8-11
    LessonSection("The Invisible Curator",
      "Imagine a librarian who knows exactly what you like and hides everything else. That's an algorithm. It's a set of rules that social media platforms use to decide what content to show you first.")
  }
  function AlgorithmsSection2(position: int): LessonSection {  // data/lessons.ts:12-15
    LessonSection("How It Works",
      "Algorithms track your clicks, likes, shares, and watch time. If you stare at a cat video for 10 seconds, the algorithm learns you like cats. It then prioritizes similar content to keep you glued to the screen.")
  }
  function AlgorithmsSection3(position: int): LessonSection {  // data/lessons.ts:16-19
    LessonSection("The Goal",
      "The primary goal isn't always to inform you\U{2014}it's to keep you engaged. Platforms sell your attention to advertisers, so the longer you stay, the more money they make.")
  }

  function AlgorithmsQuestion01(position: int): Question {  // data/lessons.ts:22-31
    Question(1, "What is the main goal of a social media algorithm?",
      [ "To show you the most important news.",
        "To keep you engaged on the platform.",
        "To help you make friends." ],
      "To keep you engaged on the platform.")
  }
  function AlgorithmsQuestion02(position: int): Question {  // data/lessons.ts:32-41
    Question(2, "What data do algorithms use to learn your preferences?",
      [ "Your likes, shares, and watch time.",
        "Your secret thoughts.",
        "Only what you explicitly type." ],
      "Your likes, shares, and watch time.")
  }
  function AlgorithmsQuestion03(position: int): Question {  // data/lessons.ts:42-51
    Question(3, "Why might an algorithm hide certain posts from you?",
      [ "The author is banned.",
        "It predicts you won't interact with them.",
        "It ran out of storage space." ],
      "It predicts you won't interact with them.")
  }
  function AlgorithmsQuestion04(position: int): Question {  // data/lessons.ts:52-61
    Question(4, "What is 'watch time'?",
      [ "The time of day you log in.",
        "How long you look at a specific post or video.",
        "The total time you've owned your account." ],
      "How long you look at a specific post or video.")
  }
  function AlgorithmsQuestion05(position: int): Question {  // data/lessons.ts:62-71
    Question(5, "If you click on many sports videos, what will the algorithm likely do?",
      [ "Show you more cooking videos.",
        "Show you more sports videos.",
        "Delete your account." ],
      "Show you more sports videos.")
  }
  function AlgorithmsQuestion06(position: int): Question {  // data/lessons.ts:72-81
    Question(6, "Who are the real 'customers' of most social media platforms?",
      [ "The users (you).",
        "The advertisers.",
        "The content creators." ],
      "The advertisers.")
  }
  function AlgorithmsQuestion07(position: int): Question {  // data/lessons.ts:82-91
    Question(7, "What is an 'infinite scroll' designed to do?",
      [ "Help you find the bottom of the page.",
        "Keep you scrolling and consuming content indefinitely.",
        "Save your battery life." ],
      "Keep you scrolling and consuming content indefinitely.")
  }
  function AlgorithmsQuestion08(position: int): Question {  // data/lessons.ts:92-101
    Question(8, "Which action usually signals the strongest interest to an algorithm?",
      [ "Scrolling past quickly.",
        "Sharing the post with a friend.",
        "Pausing for 1 second." ],
      "Sharing the post with a friend.")
  }
  function AlgorithmsQuestion09(position: int): Question {  // data/lessons.ts:102-111
    Question(9, "Why do algorithms favor controversial content?",
      [ "It is usually more truthful.",
        "It generates more comments and engagement.",
        "It is easier to load." ],
      "It generates more comments and engagement.")
  }
  function AlgorithmsQuestion10(position: int): Question {  // data/lessons.ts:112-121
    Question(10, "What is a 'feed'?",
      [ "A meal for your pet.",
        "The stream of content curated for you.",
        "A payment to the platform." ],
      "The stream of content curated for you.")
  }
  function AlgorithmsQuestion11(position: int): Question {  // data/lessons.ts:122-131
    Question(11, "Does the algorithm show everyone the same thing?",
      [ "Yes, everyone sees the same news.",
        "No, everyone's feed is personalized.",
        "Only on weekends." ],
      "No, everyone's feed is personalized.")
  }
  function AlgorithmsQuestion12(position: int): Question {  // data/lessons.ts:132-141
    Question(12, "How can you 'train' your algorithm?",
      [ "By yelling at your phone.",
        "By engaging with content you actually like and ignoring what you don't.",
        "You cannot change it." ],
      "By engaging with content you actually like and ignoring what you don't.")
  }
  function AlgorithmsQuestion13(position: int): Question {  // data/lessons.ts:142-151
    Question(13, "What is 'clickbait'?",
      [ "A fishing tool.",
        "A headline designed to trick you into clicking.",
        "A type of computer mouse." ],
      "A headline designed to trick you into clicking.")
  }
  function AlgorithmsQuestion14(position: int): Question {  // data/lessons.ts:152-161
    Question(14, "Why do free apps collect your data?",
      [ "To build a profile to target ads.",
        "To send you birthday cards.",
        "They don't collect data." ],
      "To build a profile to target ads.")
  }
  function AlgorithmsQuestion15(position: int): Question {  // data/lessons.ts:162-171
    Question(15, "What happens if you stop engaging with a certain type of content?",
      [ "The algorithm will eventually show you less of it.",
        "It will show you more of it to annoy you.",
        "Nothing changes." ],
      "The algorithm will eventually show you less of it.")
  }

  // ---- Lesson `echo-chambers` (data/lessons.ts:174-343) ----

  /** The reading sections of `echo-chambers`, in order (data/lessons.ts:178-189). */
  const EchoChambersSections: seq<LessonSection> := seq(3, k =>
    if k == 0 then EchoChambersSection1(k) else
    if k == 1 then EchoChambersSection2(k) else
      EchoChambersSection3(k))

  /** The quiz of `echo-chambers`, in order (data/lessons.ts:192-341). */
  const EchoChambersQuestions: seq<Question> := seq(15, k =>
    if k == 0 then EchoChambersQuestion01(k) else
    if k == 1 then EchoChambersQuestion02(k) else
    if k == 2 then EchoChambersQuestion03(k) else
    if k == 3 then EchoChambersQuestion04(k) else
    if k == 4 then EchoChambersQuestion05(k) else
    if k == 5 then EchoChambersQuestion06(k) else
    if k == 6 then EchoChambersQuestion07(k) else
    if k == 7 then EchoChambersQuestion08(k) else
    if k == 8 then EchoChambersQuestion09(k) else
    if k == 9 then EchoChambersQuestion10(k) else
    if k == 10 then EchoChambersQuestion11(k) else
    if k == 11 then EchoChambersQuestion12(k) else
    if k == 12 then EchoChambersQuestion13(k) else
    if k == 13 then EchoChambersQuestion14(k) else
      EchoChambersQuestion15(k))

  function EchoChambersSection1(position: int): LessonSection {  // data/lessons.ts:178-181
    LessonSection("What is an Echo Chamber?",
      "In the vast ocean of the internet, it's easy to drift into an 'Echo Chamber'. This happens when algorithms feed you content that reinforces what you already believe, shielding you from opposing viewpoints.")
  }
  function EchoChambersSection2(position: int): LessonSection {  // data/lessons.ts:182-185
    LessonSection("Why does it happen?",
      "Engagement is currency. Platforms prioritize content that keeps you clicking. Often, this means showing you what makes you feel validated or sparks immediate outrage, rather than a balanced perspective.")
  }
  function EchoChambersSection3(position: int): LessonSection {  // data/lessons.ts:186-189
    LessonSection("Breaking Free",
      "Being in a bubble limits your growth. To break free, you must actively seek out diverse sources, question why a specific post was shown to you, and pause before reacting to emotionally charged content.")
  }

  function EchoChambersQuestion01(position: int): Question {  // data/lessons.ts:192-201
    Question(1, "What is a 'filter bubble'?",
      [ "A photo editing feature.",
        "A state of isolation where you only see agreeable info.",
        "A type of screen protector." ],
      "A state of isolation where you only see agreeable info.")
  }
  function EchoChambersQuestion02(position: int): Question {  // data/lessons.ts:202-211
    Question(2, "How can you break out of an echo chamber?",
      [ "Delete your account.",
        "Actively follow diverse perspectives.",
        "Only read news from one source." ],
      "Actively follow diverse perspectives.")
  }
  function EchoChambersQuestion03(position: int): Question {  // data/lessons.ts:212-221
    Question(3, "Which emotion tends to travel fastest on social media?",
      [ "Calmness.",
        "Boredom.",
        "Outrage/Anger." ],
      "Outrage/Anger.")
  }
  function EchoChambersQuestion04(position: int): Question {  // data/lessons.ts:222-231
    Question(4, "What is 'confirmation bias'?",
      [ "Believing only information that supports your existing views.",
        "Checking if a website is secure.",
        "Confirming your email address." ],
      "Believing only information that supports your existing views.")
  }
  function EchoChambersQuestion05(position: int): Question {  // data/lessons.ts:232-241
    Question(5, "Why are echo chambers dangerous?",
      [ "They make the internet too loud.",
        "They can lead to polarization and intolerance.",
        "They use too much data." ],
      "They can lead to polarization and intolerance.")
  }
  function EchoChambersQuestion06(position: int): Question {  // data/lessons.ts:242-251
    Question(6, "If you only follow people who agree with you, what are you creating?",
      [ "A debate club.",
        "An echo chamber.",
        "A diverse community." ],
      "An echo chamber.")
  }
  function EchoChambersQuestion07(position: int): Question {  // data/lessons.ts:252-261
    Question(7, "What is 'selective exposure'?",
      [ "Taking photos in the sun.",
        "Choosing to consume only media that aligns with your views.",
        "Exposing fake news." ],
      "Choosing to consume only media that aligns with your views.")
  }
  function EchoChambersQuestion08(position: int): Question {  // data/lessons.ts:262-271
    Question(8, "How does the algorithm contribute to echo chambers?",
      [ "By showing you content you are likely to agree with.",
        "By blocking all news.",
        "By randomly selecting posts." ],
      "By showing you content you are likely to agree with.")
  }
  function EchoChambersQuestion09(position: int): Question {  // data/lessons.ts:272-281
    Question(9, "What is a good way to fact-check a story?",
      [ "Ask your best friend.",
        "Look for the same story on multiple reputable news sites.",
        "Believe the headline immediately." ],
      "Look for the same story on multiple reputable news sites.")
  }
  function EchoChambersQuestion10(position: int): Question {  // data/lessons.ts:282-291
    Question(10, "What is 'polarization'?",
      [ "Melting ice caps.",
        "The division of groups into opposing extremes.",
        "A type of camera lens." ],
      "The division of groups into opposing extremes.")
  }
  function EchoChambersQuestion11(position: int): Question {  // data/lessons.ts:292-301
    Question(11, "Why might you feel smarter in an echo chamber?",
      [ "You are learning new things.",
        "Everyone agrees with you, validating your intelligence.",
        "The content is harder to read." ],
      "Everyone agrees with you, validating your intelligence.")
  }
  function EchoChambersQuestion12(position: int): Question {  // data/lessons.ts:302-311
    Question(12, "What should you do before sharing an emotional post?",
      [ "Pause and verify the information.",
        "Share it immediately.",
        "Add an angry comment." ],
      "Pause and verify the information.")
  }
  function EchoChambersQuestion13(position: int): Question {  // data/lessons.ts:312-321
    Question(13, "Does an echo chamber give you a full picture of reality?",
      [ "Yes, it is very accurate.",
        "No, it presents a distorted or incomplete view.",
        "Only on Tuesdays." ],
      "No, it presents a distorted or incomplete view.")
  }
  function EchoChambersQuestion14(position: int): Question {  // data/lessons.ts:322-331
    Question(14, "What is 'cognitive dissonance'?",
      [ "A musical term.",
        "Discomfort felt when encountering conflicting information.",
        "A brain freeze." ],
      "Discomfort felt when encountering conflicting information.")
  }
  function EchoChambersQuestion15(position: int): Question {  // data/lessons.ts:332-341
    Question(15, "Who benefits from keeping you in an echo chamber?",
      [ "Society as a whole.",
        "Platforms and advertisers seeking your engagement.",
        "Your teachers." ],
      "Platforms and advertisers seeking your engagement.")
  }

  // ---- Lesson `deepfakes` (data/lessons.ts:344-513) ----

  /** The reading sections of `deepfakes`, in order (data/lessons.ts:348-359). */
  const DeepfakesSections: seq<LessonSection> := seq(3, k =>
    if k == 0 then DeepfakesSection1(k) else
    if k == 1 then DeepfakesSection2(k) else
      DeepfakesSection3(k))

  /** The quiz of `deepfakes`, in order (data/lessons.ts:362-511). */
  const DeepfakesQuestions: seq<Question> := seq(15, k =>
    if k == 0 then DeepfakesQuestion01(k) else
    if k == 1 then DeepfakesQuestion02(k) else
    if k == 2 then DeepfakesQuestion03(k) else
    if k == 3 then DeepfakesQuestion04(k) else
    if k == 4 then DeepfakesQuestion05(k) else
    if k == 5 then DeepfakesQuestion06(k) else
    if k == 6 then DeepfakesQuestion07(k) else
    if k == 7 then DeepfakesQuestion08(k) else
    if k == 8 then DeepfakesQuestion09(k) else
    if k == 9 then DeepfakesQuestion10(k) else
    if k == 10 then DeepfakesQuestion11(k) else
    if k == 11 then DeepfakesQuestion12(k) else
    if k == 12 then DeepfakesQuestion13(k) else
    if k == 13 then DeepfakesQuestion14(k) else
      DeepfakesQuestion15(k))

  function DeepfakesSection1(position: int): LessonSection {  // data/lessons.ts:348-351
    LessonSection("Seeing is No Longer Believing",
      "Deepfakes are realistic-looking images, videos, or audio recordings generated by AI. They can make it look like someone said or did something they never actually did.")
  }
  function DeepfakesSection2(position: int): LessonSection {  // data/lessons.ts:352-355
    LessonSection("How to Spot Them",
      "Look for unnatural blinking, mismatched lip syncing, weird shadows, or 'glitchy' edges around the face. AI often struggles with hands, teeth, and background text.")
  }
  function DeepfakesSection3(position: int): LessonSection {  // data/lessons.ts:356-359
    LessonSection("The Danger",
      "Deepfakes can spread misinformation, damage reputations, and commit fraud. Always verify shocking videos with reputable news sources before sharing.")
  }

  function DeepfakesQuestion01(position: int): Question {  // data/lessons.ts:362-371
    Question(1, "What is a deepfake?",
      [ "A really deep hole.",
        "AI-generated media that impersonates reality.",
        "A fake news article written by a human." ],
      "AI-generated media that impersonates reality.")
  }
  function DeepfakesQuestion02(position: int): Question {  // data/lessons.ts:372-381
    Question(2, "Which is a common sign of a deepfake video?",
      [ "Unnatural blinking or lip syncing.",
        "The video is in black and white.",
        "The audio is too quiet." ],
      "Unnatural blinking or lip syncing.")
  }
  function DeepfakesQuestion03(position: int): Question {  // data/lessons.ts:382-391
    Question(3, "What should you do if you see a suspicious video of a celebrity?",
      [ "Share it immediately.",
        "Verify it with trusted news sources.",
        "Assume it is 100% real." ],
      "Verify it with trusted news sources.")
  }
  function DeepfakesQuestion04(position: int): Question {  // data/lessons.ts:392-401
    Question(4, "What technology is primarily used to create deepfakes?",
      [ "Photoshop.",
        "Artificial Intelligence (AI).",
        "Microsoft Paint." ],
      "Artificial Intelligence (AI).")
  }
  function DeepfakesQuestion05(position: int): Question {  // data/lessons.ts:402-411
    Question(5, "Can audio be deepfaked?",
      [ "No, only video.",
        "Yes, AI can clone voices accurately.",
        "Only if the person has a robot voice." ],
      "Yes, AI can clone voices accurately.")
  }
  function DeepfakesQuestion06(position: int): Question {  // data/lessons.ts:412-421
    Question(6, "What is a 'cheapfake'?",
      [ "A deepfake that cost very little money.",
        "Media manipulated with simple editing tools (speeding up/slowing down) rather than AI.",
        "A fake product." ],
      "Media manipulated with simple editing tools (speeding up/slowing down) rather than AI.")
  }
  function DeepfakesQuestion07(position: int): Question {  // data/lessons.ts:422-431
    Question(7, "Why might someone create a deepfake?",
      [ "To spread misinformation or commit fraud.",
        "To help the person become famous.",
        "To improve video quality." ],
      "To spread misinformation or commit fraud.")
  }
  function DeepfakesQuestion08(position: int): Question {  // data/lessons.ts:432-441
    Question(8, "Which part of the body does AI often struggle to render correctly?",
      [ "The eyes.",
        "Hands and fingers.",
        "The hair." ],
      "Hands and fingers.")
  }
  function DeepfakesQuestion09(position: int): Question {  // data/lessons.ts:442-451
    Question(9, "What is 'face swapping'?",
      [ "Trading faces with a friend in real life.",
        "Digitally replacing one person's face with another's.",
        "Changing your makeup." ],
      "Digitally replacing one person's face with another's.")
  }
  function DeepfakesQuestion10(position: int): Question {  // data/lessons.ts:452-461
    Question(10, "Are all deepfakes malicious?",
      [ "Yes, always.",
        "No, they can be used for entertainment or movies.",
        "They don't exist." ],
      "No, they can be used for entertainment or movies.")
  }
  function DeepfakesQuestion11(position: int): Question {  // data/lessons.ts:462-471
    Question(11, "How can you verify an image context?",
      [ "Guess.",
        "Use a reverse image search tool.",
        "Ask the person who posted it." ],
      "Use a reverse image search tool.")
  }
  function DeepfakesQuestion12(position: int): Question {  // data/lessons.ts:472-481
    Question(12, "What is a 'bot'?",
      [ "A robot in real life.",
        "An automated program that runs tasks on the internet.",
        "A boat." ],
      "An automated program that runs tasks on the internet.")
  }
  function DeepfakesQuestion13(position: int): Question {  // data/lessons.ts:482-491
    Question(13, "Why is watermarking AI content important?",
      [ "To make it look cool.",
        "To help identify it as AI-generated.",
        "To prevent it from getting wet." ],
      "To help identify it as AI-generated.")
  }
  function DeepfakesQuestion14(position: int): Question {  // data/lessons.ts:492-501
    Question(14, "Can deepfakes influence elections?",
      [ "No, people are too smart.",
        "Yes, by spreading false information about candidates.",
        "Only in movies." ],
      "Yes, by spreading false information about candidates.")
  }
  function DeepfakesQuestion15(position: int): Question {  // data/lessons.ts:502-511
    Question(15, "What is the best defense against deepfakes?",
      [ "Critical thinking and verification.",
        "Deleting all social media.",
        "Wearing sunglasses." ],
      "Critical thinking and verification.")
  }

  // ---- Lesson `data-privacy` (data/lessons.ts:514-683) ----

  /** The reading sections of `data-privacy`, in order (data/lessons.ts:518-529). */
  const DataPrivacySections: seq<LessonSection> := seq(3, k =>
    if k == 0 then DataPrivacySection1(k) else
    if k == 1 then DataPrivacySection2(k) else
      DataPrivacySection3(k))

  /** The quiz of `data-privacy`, in order (data/lessons.ts:532-681). */
  const DataPrivacyQuestions: seq<Question> := seq(15, k =>
    if k == 0 then DataPrivacyQuestion01(k) else
    if k == 1 then DataPrivacyQuestion02(k) else
    if k == 2 then DataPrivacyQuestion03(k) else
    if k == 3 then DataPrivacyQuestion04(k) else
    if k == 4 then DataPrivacyQuestion05(k) else
    if k == 5 then DataPrivacyQuestion06(k) else
    if k == 6 then DataPrivacyQuestion07(k) else
    if k == 7 then DataPrivacyQuestion08(k) else
    if k == 8 then DataPrivacyQuestion09(k) else
    if k == 9 then DataPrivacyQuestion10(k) else
    if k == 10 then DataPrivacyQuestion11(k) else
    if k == 11 then DataPrivacyQuestion12(k) else
    if k == 12 then DataPrivacyQuestion13(k) else
    if k == 13 then DataPrivacyQuestion14(k) else
      DataPrivacyQuestion15(k))

  function DataPrivacySection1(position: int): LessonSection {  // data/lessons.ts:518-521
    LessonSection("You Are the Product",
      "If a service is free, you are likely the product. Companies collect data on your location, browsing history, and contacts to build a profile and sell ads targeting you.")
  }
  function DataPrivacySection2(position: int): LessonSection {  // data/lessons.ts:522-525
    LessonSection("The Cookie Trail",
      "Cookies are small files websites save on your device. Some are useful (keeping you logged in), but third-party cookies track you across the web to spy on your habits.")
  }
  function DataPrivacySection3(position: int): LessonSection {  // data/lessons.ts:526-529
    LessonSection("Protecting Yourself",
      "Use strong, unique passwords. Enable Two-Factor Authentication (2FA). Review app permissions\U{2014}does that flashlight app really need your location?")
  }

  function DataPrivacyQuestion01(position: int): Question {  // data/lessons.ts:532-541
    Question(1, "What does 'If it's free, you are the product' mean?",
      [ "The app is a charity.",
        "Your data is being sold to advertisers.",
        "You have to pay later." ],
      "Your data is being sold to advertisers.")
  }
  function DataPrivacyQuestion02(position: int): Question {  // data/lessons.ts:542-551
    Question(2, "What is Two-Factor Authentication (2FA)?",
      [ "Using two passwords.",
        "A second security step, like a code sent to your phone.",
        "Logging in twice." ],
      "A second security step, like a code sent to your phone.")
  }
  function DataPrivacyQuestion03(position: int): Question {  // data/lessons.ts:552-561
    Question(3, "Why should you check app permissions?",
      [ "To save battery.",
        "To ensure apps only access necessary data.",
        "To make the app run faster." ],
      "To ensure apps only access necessary data.")
  }
  function DataPrivacyQuestion04(position: int): Question {  // data/lessons.ts:562-571
    Question(4, "What is a 'cookie' on the internet?",
      [ "A sweet snack.",
        "A small file that tracks your activity on websites.",
        "A virus." ],
      "A small file that tracks your activity on websites.")
  }
  function DataPrivacyQuestion05(position: int): Question {  // data/lessons.ts:572-581
    Question(5, "What is 'phishing'?",
      [ "Catching fish.",
        "A scam where attackers pretend to be a trusted entity to steal data.",
        "A music festival." ],
      "A scam where attackers pretend to be a trusted entity to steal data.")
  }
  function DataPrivacyQuestion06(position: int): Question {  // data/lessons.ts:582-591
    Question(6, "Why is using the same password everywhere dangerous?",
      [ "It's hard to remember.",
        "If one account is hacked, all your accounts are at risk.",
        "It's boring." ],
      "If one account is hacked, all your accounts are at risk.")
  }
  function DataPrivacyQuestion07(position: int): Question {  // data/lessons.ts:592-601
    Question(7, "What is a Password Manager?",
      [ "A person you hire to remember passwords.",
        "A tool that securely stores and generates complex passwords.",
        "A notebook." ],
      "A tool that securely stores and generates complex passwords.")
  }
  function DataPrivacyQuestion08(position: int): Question {  // data/lessons.ts:602-611
    Question(8, "What is 'metadata'?",
      [ "Data about data (e.g., time and location of a photo).",
        "A new social media platform.",
        "Data that is very big." ],
      "Data about data (e.g., time and location of a photo).")
  }
  function DataPrivacyQuestion09(position: int): Question {  // data/lessons.ts:612-621
    Question(9, "What does 'Incognito Mode' do?",
      [ "Makes you invisible to the internet.",
        "Prevents your browser from saving history, but websites can still track you.",
        "Hides your IP address." ],
      "Prevents your browser from saving history, but websites can still track you.")
  }
  function DataPrivacyQuestion10(position: int): Question {  // data/lessons.ts:622-631
    Question(10, "What is a VPN?",
      [ "Very Private Network.",
        "Virtual Private Network, which encrypts your internet connection.",
        "Visual Photo Network." ],
      "Virtual Private Network, which encrypts your internet connection.")
  }
  function DataPrivacyQuestion11(position: int): Question {  // data/lessons.ts:632-641
    Question(11, "Why is public Wi-Fi risky?",
      [ "It is slow.",
        "Hackers can easily intercept data sent over unsecured networks.",
        "It costs money." ],
      "Hackers can easily intercept data sent over unsecured networks.")
  }
  function DataPrivacyQuestion12(position: int): Question {  // data/lessons.ts:642-651
    Question(12, "What is 'end-to-end encryption'?",
      [ "A puzzle.",
        "A method where only the sender and receiver can read the messages.",
        "Deleting messages after reading." ],
      "A method where only the sender and receiver can read the messages.")
  }
  function DataPrivacyQuestion13(position: int): Question {  // data/lessons.ts:652-661
    Question(13, "What should you do if you receive a suspicious link?",
      [ "Click it to see what it is.",
        "Do not click it; verify the sender.",
        "Forward it to a friend." ],
      "Do not click it; verify the sender.")
  }
  function DataPrivacyQuestion14(position: int): Question {  // data/lessons.ts:662-671
    Question(14, "What is a 'privacy policy'?",
      [ "A secret document.",
        "A statement explaining how a company collects and uses your data.",
        "A rule about being quiet." ],
      "A statement explaining how a company collects and uses your data.")
  }
  function DataPrivacyQuestion15(position: int): Question {  // data/lessons.ts:672-681
    Question(15, "Can deleted photos be recovered?",
      [ "Never.",
        "Sometimes, as they may still exist on servers or backups.",
        "Only by magic." ],
      "Sometimes, as they may still exist on servers or backups.")
  }
  // ---- well-formedness of `algorithms`, one question at a time ----

  lemma AlgorithmsQuestion01WellFormed()
    ensures AlgorithmsQuestions[0] == AlgorithmsQuestion01(0)
    ensures QuestionFacts(AlgorithmsQuestion01(0), 0)
  {
  }

  lemma AlgorithmsQuestion02WellFormed()
    ensures AlgorithmsQuestions[1] == AlgorithmsQuestion02(1)
    ensures QuestionFacts(AlgorithmsQuestion02(1), 1)
  {
  }

  lemma AlgorithmsQuestion03WellFormed()
    ensures AlgorithmsQuestions[2] == AlgorithmsQuestion03(2)
    ensures QuestionFacts(AlgorithmsQuestion03(2), 2)
  {
  }

  lemma AlgorithmsQuestion04WellFormed()
    ensures AlgorithmsQuestions[3] == AlgorithmsQuestion04(3)
    ensures QuestionFacts(AlgorithmsQuestion04(3), 3)
  {
  }

  lemma AlgorithmsQuestion05WellFormed()
    ensures AlgorithmsQuestions[4] == AlgorithmsQuestion05(4)
    ensures QuestionFacts(AlgorithmsQuestion05(4), 4)
  {
  }

  lemma AlgorithmsQuestion06WellFormed()
    ensures AlgorithmsQuestions[5] == AlgorithmsQuestion06(5)
    ensures QuestionFacts(AlgorithmsQuestion06(5), 5)
  {
  }

  lemma AlgorithmsQuestion07WellFormed()
    ensures AlgorithmsQuestions[6] == AlgorithmsQuestion07(6)
    ensures QuestionFacts(AlgorithmsQuestion07(6), 6)
  {
  }

  lemma AlgorithmsQuestion08WellFormed()
    ensures AlgorithmsQuestions[7] == AlgorithmsQuestion08(7)
    ensures QuestionFacts(AlgorithmsQuestion08(7), 7)
  {
  }

  lemma AlgorithmsQuestion09WellFormed()
    ensures AlgorithmsQuestions[8] == AlgorithmsQuestion09(8)
    ensures QuestionFacts(AlgorithmsQuestion09(8), 8)
  {
  }

  lemma AlgorithmsQuestion10WellFormed()
    ensures AlgorithmsQuestions[9] == AlgorithmsQuestion10(9)
    ensures QuestionFacts(AlgorithmsQuestion10(9), 9)
  {
  }

  lemma AlgorithmsQuestion11WellFormed()
    ensures AlgorithmsQuestions[10] == AlgorithmsQuestion11(10)
    ensures QuestionFacts(AlgorithmsQuestion11(10), 10)
  {
  }

  lemma AlgorithmsQuestion12WellFormed()
    ensures AlgorithmsQuestions[11] == AlgorithmsQuestion12(11)
    ensures QuestionFacts(AlgorithmsQuestion12(11), 11)
  {
  }

  lemma AlgorithmsQuestion13WellFormed()
    ensures AlgorithmsQuestions[12] == AlgorithmsQuestion13(12)
    ensures QuestionFacts(AlgorithmsQuestion13(12), 12)
  {
  }

  lemma AlgorithmsQuestion14WellFormed()
    ensures AlgorithmsQuestions[13] == AlgorithmsQuestion14(13)
    ensures QuestionFacts(AlgorithmsQuestion14(13), 13)
  {
  }

  lemma AlgorithmsQuestion15WellFormed()
    ensures AlgorithmsQuestions[14] == AlgorithmsQuestion15(14)
    ensures QuestionFacts(AlgorithmsQuestion15(14), 14)
  {
  }

  /** Every question of `algorithms` is valid, has three options and is numbered by its position; the lesson has three sections. */
  lemma AlgorithmsWellFormed()
    ensures LessonFacts(AlgorithmsSections, AlgorithmsQuestions)
  {
    forall k | 0 <= k < |AlgorithmsQuestions|
      ensures QuestionFacts(AlgorithmsQuestions[k], k)
    {
      if k == 0 {
        AlgorithmsQuestion01WellFormed();
      } else if k == 1 {
        AlgorithmsQuestion02WellFormed();
      } else if k == 2 {
        AlgorithmsQuestion03WellFormed();
      } else if k == 3 {
        AlgorithmsQuestion04WellFormed();
      } else if k == 4 {
        AlgorithmsQuestion05WellFormed();
      } else if k == 5 {
        AlgorithmsQuestion06WellFormed();
      } else if k == 6 {
        AlgorithmsQuestion07WellFormed();
      } else if k == 7 {
        AlgorithmsQuestion08WellFormed();
      } else if k == 8 {
        AlgorithmsQuestion09WellFormed();
      } else if k == 9 {
        AlgorithmsQuestion10WellFormed();
      } else if k == 10 {
        AlgorithmsQuestion11WellFormed();
      } else if k == 11 {
        AlgorithmsQuestion12WellFormed();
      } else if k == 12 {
        AlgorithmsQuestion13WellFormed();
      } else if k == 13 {
        AlgorithmsQuestion14WellFormed();
      } else if k == 14 {
        AlgorithmsQuestion15WellFormed();
      }
    }
  }

  // ---- well-formedness of `echo-chambers`, one question at a time ----

  lemma EchoChambersQuestion01WellFormed()
    ensures EchoChambersQuestions[0] == EchoChambersQuestion01(0)
    ensures QuestionFacts(EchoChambersQuestion01(0), 0)
  {
  }

  lemma EchoChambersQuestion02WellFormed()
    ensures EchoChambersQuestions[1] == EchoChambersQuestion02(1)
    ensures QuestionFacts(EchoChambersQuestion02(1), 1)
  {
  }

  lemma EchoChambersQuestion03WellFormed()
    ensures EchoChambersQuestions[2] == EchoChambersQuestion03(2)
    ensures QuestionFacts(EchoChambersQuestion03(2), 2)
  {
  }

  lemma EchoChambersQuestion04WellFormed()
    ensures EchoChambersQuestions[3] == EchoChambersQuestion04(3)
    ensures QuestionFacts(EchoChambersQuestion04(3), 3)
  {
  }

  lemma EchoChambersQuestion05WellFormed()
    ensures EchoChambersQuestions[4] == EchoChambersQuestion05(4)
    ensures QuestionFacts(EchoChambersQuestion05(4), 4)
  {
  }

  lemma EchoChambersQuestion06WellFormed()
    ensures EchoChambersQuestions[5] == EchoChambersQuestion06(5)
    ensures QuestionFacts(EchoChambersQuestion06(5), 5)
  {
  }

  lemma EchoChambersQuestion07WellFormed()
    ensures EchoChambersQuestions[6] == EchoChambersQuestion07(6)
    ensures QuestionFacts(EchoChambersQuestion07(6), 6)
  {
  }

  lemma EchoChambersQuestion08WellFormed()
    ensures EchoChambersQuestions[7] == EchoChambersQuestion08(7)
    ensures QuestionFacts(EchoChambersQuestion08(7), 7)
  {
  }

  lemma EchoChambersQuestion09WellFormed()
    ensures EchoChambersQuestions[8] == EchoChambersQuestion09(8)
    ensures QuestionFacts(EchoChambersQuestion09(8), 8)
  {
  }

  lemma EchoChambersQuestion10WellFormed()
    ensures EchoChambersQuestions[9] == EchoChambersQuestion10(9)
    ensures QuestionFacts(EchoChambersQuestion10(9), 9)
  {
  }

  lemma EchoChambersQuestion11WellFormed()
    ensures EchoChambersQuestions[10] == EchoChambersQuestion11(10)
    ensures QuestionFacts(EchoChambersQuestion11(10), 10)
  {
  }

  lemma EchoChambersQuestion12WellFormed()
    ensures EchoChambersQuestions[11] == EchoChambersQuestion12(11)
    ensures QuestionFacts(EchoChambersQuestion12(11), 11)
  {
  }

  lemma EchoChambersQuestion13WellFormed()
    ensures EchoChambersQuestions[12] == EchoChambersQuestion13(12)
    ensures QuestionFacts(EchoChambersQuestion13(12), 12)
  {
  }

  lemma EchoChambersQuestion14WellFormed()
    ensures EchoChambersQuestions[13] == EchoChambersQuestion14(13)
    ensures QuestionFacts(EchoChambersQuestion14(13), 13)
  {
  }

  lemma EchoChambersQuestion15WellFormed()
    ensures EchoChambersQuestions[14] == EchoChambersQuestion15(14)
    ensures QuestionFacts(EchoChambersQuestion15(14), 14)
  {
  }

  /** Every question of `echo-chambers` is valid, has three options and is numbered by its position; the lesson has three sections. */
  lemma EchoChambersWellFormed()
    ensures LessonFacts(EchoChambersSections, EchoChambersQuestions)
  {
    forall k | 0 <= k < |EchoChambersQuestions|
      ensures QuestionFacts(EchoChambersQuestions[k], k)
    {
      if k == 0 {
        EchoChambersQuestion01WellFormed();
      } else if k == 1 {
        EchoChambersQuestion02WellFormed();
      } else if k == 2 {
        EchoChambersQuestion03WellFormed();
      } else if k == 3 {
        EchoChambersQuestion04WellFormed();
      } else if k == 4 {
        EchoChambersQuestion05WellFormed();
      } else if k == 5 {
        EchoChambersQuestion06WellFormed();
      } else if k == 6 {
        EchoChambersQuestion07WellFormed();
      } else if k == 7 {
        EchoChambersQuestion08WellFormed();
      } else if k == 8 {
        EchoChambersQuestion09WellFormed();
      } else if k == 9 {
        EchoChambersQuestion10WellFormed();
      } else if k == 10 {
        EchoChambersQuestion11WellFormed();
      } else if k == 11 {
        EchoChambersQuestion12WellFormed();
      } else if k == 12 {
        EchoChambersQuestion13WellFormed();
      } else if k == 13 {
        EchoChambersQuestion14WellFormed();
      } else if k == 14 {
        EchoChambersQuestion15WellFormed();
      }
    }
  }

  // ---- well-formedness of `deepfakes`, one question at a time ----

  lemma DeepfakesQuestion01WellFormed()
    ensures DeepfakesQuestions[0] == DeepfakesQuestion01(0)
    ensures QuestionFacts(DeepfakesQuestion01(0), 0)
  {
  }

  lemma DeepfakesQuestion02WellFormed()
    ensures DeepfakesQuestions[1] == DeepfakesQuestion02(1)
    ensures QuestionFacts(DeepfakesQuestion02(1), 1)
  {
  }

  lemma DeepfakesQuestion03WellFormed()
    ensures DeepfakesQuestions[2] == DeepfakesQuestion03(2)
    ensures QuestionFacts(DeepfakesQuestion03(2), 2)
  {
  }

  lemma DeepfakesQuestion04WellFormed()
    ensures DeepfakesQuestions[3] == DeepfakesQuestion04(3)
    ensures QuestionFacts(DeepfakesQuestion04(3), 3)
  {
  }

  lemma DeepfakesQuestion05WellFormed()
    ensures DeepfakesQuestions[4] == DeepfakesQuestion05(4)
    ensures QuestionFacts(DeepfakesQuestion05(4), 4)
  {
  }

  lemma DeepfakesQuestion06WellFormed()
    ensures DeepfakesQuestions[5] == DeepfakesQuestion06(5)
    ensures QuestionFacts(DeepfakesQuestion06(5), 5)
  {
  }

  lemma DeepfakesQuestion07WellFormed()
    ensures DeepfakesQuestions[6] == DeepfakesQuestion07(6)
    ensures QuestionFacts(DeepfakesQuestion07(6), 6)
  {
  }

  lemma DeepfakesQuestion08WellFormed()
    ensures DeepfakesQuestions[7] == DeepfakesQuestion08(7)
    ensures QuestionFacts(DeepfakesQuestion08(7), 7)
  {
  }

  lemma DeepfakesQuestion09WellFormed()
    ensures DeepfakesQuestions[8] == DeepfakesQuestion09(8)
    ensures QuestionFacts(DeepfakesQuestion09(8), 8)
  {
  }

  lemma DeepfakesQuestion10WellFormed()
    ensures DeepfakesQuestions[9] == DeepfakesQuestion10(9)
    ensures QuestionFacts(DeepfakesQuestion10(9), 9)
  {
  }

  lemma DeepfakesQuestion11WellFormed()
    ensures DeepfakesQuestions[10] == DeepfakesQuestion11(10)
    ensures QuestionFacts(DeepfakesQuestion11(10), 10)
  {
  }

  lemma DeepfakesQuestion12WellFormed()
    ensures DeepfakesQuestions[11] == DeepfakesQuestion12(11)
    ensures QuestionFacts(DeepfakesQuestion12(11), 11)
  {
  }

  lemma DeepfakesQuestion13WellFormed()
    ensures DeepfakesQuestions[12] == DeepfakesQuestion13(12)
    ensures QuestionFacts(DeepfakesQuestion13(12), 12)
  {
  }

  lemma DeepfakesQuestion14WellFormed()
    ensures DeepfakesQuestions[13] == DeepfakesQuestion14(13)
    ensures QuestionFacts(DeepfakesQuestion14(13), 13)
  {
  }

  lemma DeepfakesQuestion15WellFormed()
    ensures DeepfakesQuestions[14] == DeepfakesQuestion15(14)
    ensures QuestionFacts(DeepfakesQuestion15(14), 14)
  {
  }

  /** Every question of `deepfakes` is valid, has three options and is numbered by its position; the lesson has three sections. */
  lemma DeepfakesWellFormed()
    ensures LessonFacts(DeepfakesSections, DeepfakesQuestions)
  {
    forall k | 0 <= k < |DeepfakesQuestions|
      ensures QuestionFacts(DeepfakesQuestions[k], k)
    {
      if k == 0 {
        DeepfakesQuestion01WellFormed();
      } else if k == 1 {
        DeepfakesQuestion02WellFormed();
      } else if k == 2 {
        DeepfakesQuestion03WellFormed();
      } else if k == 3 {
        DeepfakesQuestion04WellFormed();
      } else if k == 4 {
        DeepfakesQuestion05WellFormed();
      } else if k == 5 {
        DeepfakesQuestion06WellFormed();
      } else if k == 6 {
        DeepfakesQuestion07WellFormed();
      } else if k == 7 {
        DeepfakesQuestion08WellFormed();
      } else if k == 8 {
        DeepfakesQuestion09WellFormed();
      } else if k == 9 {
        DeepfakesQuestion10WellFormed();
      } else if k == 10 {
        DeepfakesQuestion11WellFormed();
      } else if k == 11 {
        DeepfakesQuestion12WellFormed();
      } else if k == 12 {
        DeepfakesQuestion13WellFormed();
      } else if k == 13 {
        DeepfakesQuestion14WellFormed();
      } else if k == 14 {
        DeepfakesQuestion15WellFormed();
      }
    }
  }

  // ---- well-formedness of `data-privacy`, one question at a time ----

  lemma DataPrivacyQuestion01WellFormed()
    ensures DataPrivacyQuestions[0] == DataPrivacyQuestion01(0)
    ensures QuestionFacts(DataPrivacyQuestion01(0), 0)
  {
  }

  lemma DataPrivacyQuestion02WellFormed()
    ensures DataPrivacyQuestions[1] == DataPrivacyQuestion02(1)
    ensures QuestionFacts(DataPrivacyQuestion02(1), 1)
  {
  }

  lemma DataPrivacyQuestion03WellFormed()
    ensures DataPrivacyQuestions[2] == DataPrivacyQuestion03(2)
    ensures QuestionFacts(DataPrivacyQuestion03(2), 2)
  {
  }

  lemma DataPrivacyQuestion04WellFormed()
    ensures DataPrivacyQuestions[3] == DataPrivacyQuestion04(3)
    ensures QuestionFacts(DataPrivacyQuestion04(3), 3)
  {
  }

  lemma DataPrivacyQuestion05WellFormed()
    ensures DataPrivacyQuestions[4] == DataPrivacyQuestion05(4)
    ensures QuestionFacts(DataPrivacyQuestion05(4), 4)
  {
  }

  lemma DataPrivacyQuestion06WellFormed()
    ensures DataPrivacyQuestions[5] == DataPrivacyQuestion06(5)
    ensures QuestionFacts(DataPrivacyQuestion06(5), 5)
  {
  }

  lemma DataPrivacyQuestion07WellFormed()
    ensures DataPrivacyQuestions[6] == DataPrivacyQuestion07(6)
    ensures QuestionFacts(DataPrivacyQuestion07(6), 6)
  {
  }

  lemma DataPrivacyQuestion08WellFormed()
    ensures DataPrivacyQuestions[7] == DataPrivacyQuestion08(7)
    ensures QuestionFacts(DataPrivacyQuestion08(7), 7)
  {
  }

  lemma DataPrivacyQuestion09WellFormed()
    ensures DataPrivacyQuestions[8] == DataPrivacyQuestion09(8)
    ensures QuestionFacts(DataPrivacyQuestion09(8), 8)
  {
  }

  lemma DataPrivacyQuestion10WellFormed()
    ensures DataPrivacyQuestions[9] == DataPrivacyQuestion10(9)
    ensures QuestionFacts(DataPrivacyQuestion10(9), 9)
  {
  }

  lemma DataPrivacyQuestion11WellFormed()
    ensures DataPrivacyQuestions[10] == DataPrivacyQuestion11(10)
    ensures QuestionFacts(DataPrivacyQuestion11(10), 10)
  {
  }

  lemma DataPrivacyQuestion12WellFormed()
    ensures DataPrivacyQuestions[11] == DataPrivacyQuestion12(11)
    ensures QuestionFacts(DataPrivacyQuestion12(11), 11)
  {
  }

  lemma DataPrivacyQuestion13WellFormed()
    ensures DataPrivacyQuestions[12] == DataPrivacyQuestion13(12)
    ensures QuestionFacts(DataPrivacyQuestion13(12), 12)
  {
  }

  lemma DataPrivacyQuestion14WellFormed()
    ensures DataPrivacyQuestions[13] == DataPrivacyQuestion14(13)
    ensures QuestionFacts(DataPrivacyQuestion14(13), 13)
  {
  }

  lemma DataPrivacyQuestion15WellFormed()
    ensures DataPrivacyQuestions[14] == DataPrivacyQuestion15(14)
    ensures QuestionFacts(DataPrivacyQuestion15(14), 14)
  {
  }

  /** Every question of `data-privacy` is valid, has three options and is numbered by its position; the lesson has three sections. */
  lemma DataPrivacyWellFormed()
    ensures LessonFacts(DataPrivacySections, DataPrivacyQuestions)
  {
    forall k | 0 <= k < |DataPrivacyQuestions|
      ensures QuestionFacts(DataPrivacyQuestions[k], k)
    {
      if k == 0 {
        DataPrivacyQuestion01WellFormed();
      } else if k == 1 {
        DataPrivacyQuestion02WellFormed();
      } else if k == 2 {
        DataPrivacyQuestion03WellFormed();
      } else if k == 3 {
        DataPrivacyQuestion04WellFormed();
      } else if k == 4 {
        DataPrivacyQuestion05WellFormed();
      } else if k == 5 {
        DataPrivacyQuestion06WellFormed();
      } else if k == 6 {
        DataPrivacyQuestion07WellFormed();
      } else if k == 7 {
        DataPrivacyQuestion08WellFormed();
      } else if k == 8 {
        DataPrivacyQuestion09WellFormed();
      } else if k == 9 {
        DataPrivacyQuestion10WellFormed();
      } else if k == 10 {
        DataPrivacyQuestion11WellFormed();
      } else if k == 11 {
        DataPrivacyQuestion12WellFormed();
      } else if k == 12 {
        DataPrivacyQuestion13WellFormed();
      } else if k == 13 {
        DataPrivacyQuestion14WellFormed();
      } else if k == 14 {
        DataPrivacyQuestion15WellFormed();
      }
    }
  }

  /** The catalog holds four lessons, in this order (data/lessons.ts:5, 175, 345, 515). */
  lemma CatalogIds()
    ensures Ids(LESSONS) == ["algorithms", "echo-chambers", "deepfakes", "data-privacy"]
  {
  }

  /** Each lesson of the catalog has three sections and fifteen well-formed questions numbered from 1. */
  lemma CatalogShape()
    ensures forall i :: 0 <= i < |LESSONS| ==> LessonFacts(LESSONS[i].sections, LESSONS[i].questions)
  {
    AlgorithmsWellFormed();
    EchoChambersWellFormed();
    DeepfakesWellFormed();
    DataPrivacyWellFormed();
  }

  /** No two lessons of the catalog share an id, and none has the empty id. */
  lemma CatalogIdsDistinct()
    ensures DistinctIds(LESSONS)
    ensures !HasId(LESSONS, "")
  {
    CatalogIds();
    // The four ids have four different lengths.
    forall i | 0 <= i < |LESSONS|
      ensures |LESSONS[i].id| == [10, 13, 9, 12][i]
    {
      assert LESSONS[i].id == Ids(LESSONS)[i];
    }
  }

  /** A lesson with the catalog's facts is one the quiz can run. */
  lemma FactsMakeValidLesson(l: Lesson)
    requires LessonFacts(l.sections, l.questions)
    ensures ValidLesson(l)
  {
  }

  /** The catalog satisfies everything the quiz engine and the unlock rule rely on. */
  lemma CatalogIsValid()
    ensures ValidCatalog(LESSONS)
    ensures LESSONS[0].id == "algorithms"
  {
    CatalogIds();
    CatalogShape();
    CatalogIdsDistinct();
    forall i | 0 <= i < |LESSONS|
      ensures ValidLesson(LESSONS[i])
    {
      FactsMakeValidLesson(LESSONS[i]);
    }
  }
}
