/**
 * The pet screen: the chat with the companion and the progress summary.
 * Sending a message appends the learner's words and then the companion's
 * reply to the transcript; the reply comes from the text-generation
 * service, whose outcome is a parameter. The summary is drawn from two
 * numbers the app root passes down: completed lessons and catalog size.
 */
module PetOasis {
  import opened Types
  import opened JsText

  /** Who wrote a transcript entry (components/PetOasisView.tsx:11-14). */
  datatype Role = UserRole | ModelRole

  /** One transcript entry (components/PetOasisView.tsx:11-14). */
  datatype Message = Message(role: Role, text: string)

  /** The companion's first line (components/PetOasisView.tsx:19). */
  const GREETING := "Woof! I'm Sparky v2.0. Ready to learn something new?"
  /** The reply shown when the service answers with empty text (components/PetOasisView.tsx:54). */
  const EMPTY_REPLY := "Woof? (Connection error)"
  /** The reply shown when the service cannot be reached (components/PetOasisView.tsx:57). */
  const FAILURE_REPLY := "*Sad robot noises* I couldn't reach the server. Please check your API key configuration."

  /** The companion's reply for a service outcome (components/PetOasisView.tsx:54, 57). */
  function ReplyText(reply: Reply): (t: string)
    ensures t != ""
    ensures reply.Ok? && reply.text != "" ==> t == reply.text
    ensures reply.Ok? && reply.text == "" ==> t == EMPTY_REPLY
    ensures reply.Err? ==> t == FAILURE_REPLY
  {
    match reply
    case Ok(text) => OrElse(text, EMPTY_REPLY)
    case Err => FAILURE_REPLY
  }

  /**
   * The shape every transcript keeps: it opens with the greeting, the
   * companion and the learner take turns starting with the companion, and
   * no learner message is blank.
   */
  ghost predicate WellFormedTranscript(messages: seq<Message>)
  {
    && 0 < |messages|
    && messages[0] == Message(ModelRole, GREETING)
    && |messages| % 2 == 1
    && (forall i :: 0 <= i < |messages| ==> (messages[i].role == UserRole <==> i % 2 == 1))
    && (forall i :: 0 <= i < |messages| && messages[i].role == UserRole ==> !IsBlank(messages[i].text))
  }

  /** The transcript after one non-blank send: what was typed, then the companion's reply. */
  lemma {:induction false} SendKeepsTranscriptWellFormed(messages: seq<Message>, typed: string, reply: Reply)
    requires WellFormedTranscript(messages)
    requires !IsBlank(typed)
    ensures WellFormedTranscript(messages + [Message(UserRole, typed), Message(ModelRole, ReplyText(reply))])
  {
    var n := |messages|;
    var m := messages + [Message(UserRole, typed), Message(ModelRole, ReplyText(reply))];
    assert m[n] == Message(UserRole, typed) && m[n + 1] == Message(ModelRole, ReplyText(reply));
    forall i | 0 <= i < |m|
      ensures m[i].role == UserRole <==> i % 2 == 1
      ensures m[i].role == UserRole ==> !IsBlank(m[i].text)
    {
      if i < n {
        assert m[i] == messages[i];
      }
    }
  }

  /** The progress dots (components/PetOasisView.tsx:103-107): one per lesson, the first `completed` of them filled. */
  function ProgressDots(total: nat, completed: int): (dots: seq<bool>)
    ensures |dots| == total
  {
    seq(total, i => i < completed)
  }

  /** The number of filled dots in a row. */
  function FilledCount(dots: seq<bool>): nat
  {
    if |dots| == 0 then 0 else FilledCount(dots[..|dots| - 1]) + (if dots[|dots| - 1] then 1 else 0)
  }

  /** Dot i is filled exactly when i < completed, so as many dots are filled as lessons are completed, capped by the total. */
  lemma {:induction false} ProgressDotsFilled(total: nat, completed: int)
    ensures forall i :: 0 <= i < total ==> (ProgressDots(total, completed)[i] <==> i < completed)
    ensures FilledCount(ProgressDots(total, completed)) ==
      if completed <= 0 then 0 else if completed >= total then total else completed
    decreases total
  {
    if total > 0 {
      ProgressDotsFilled(total - 1, completed);
      assert ProgressDots(total, completed)[..total - 1] == ProgressDots(total - 1, completed);
    }
  }

  /** The points badge: one hundred per completed lesson (components/PetOasisView.tsx:85). */
  function NeuralPoints(completed: int): int
  {
    completed * 100
  }

  /** The line under the dots (components/PetOasisView.tsx:111). */
  function RemainingText(total: int, completed: int): string
  {
    if completed == total then "Max Level Reached!" else IntToString(total - completed) + " more to fully evolve!"
  }

  /**
   * The line under the dots announces the maximum level exactly when every
   * lesson is completed, and otherwise starts with the number of lessons
   * still to go, written in decimal: a run of digits without a leading zero
   * that denotes that number, followed by the fixed words.
   */
  lemma RemainingTextMeaning(total: int, completed: int)
    requires 0 <= completed <= total
    ensures RemainingText(total, completed) == "Max Level Reached!" <==> completed == total
    ensures completed < total ==>
      exists k :: 0 < k <= |RemainingText(total, completed)| &&
        (forall i :: 0 <= i < k ==> '0' <= RemainingText(total, completed)[i] <= '9') &&
        RemainingText(total, completed)[0] != '0' &&
        DecimalValue(RemainingText(total, completed)[..k]) == total - completed &&
        RemainingText(total, completed)[k..] == " more to fully evolve!"
  {
    if completed < total {
      var digits := NatToString(total - completed);
      NatToStringDenotes(total - completed);
      var s := RemainingText(total, completed);
      assert s == digits + " more to fully evolve!";
      assert s[..|digits|] == digits;
      assert s[|digits|..] == " more to fully evolve!";
      assert s != "Max Level Reached!" by {
        assert '0' <= s[0] <= '9';
      }
    }
  }

  /** The chat's state (components/PetOasisView.tsx:18-22). */
  class PetOasisView {
    var messages: seq<Message>
    var input: string
    var isTyping: bool

    /** The transcript keeps its shape. */
    ghost predicate Valid()
      reads this
    {
      WellFormedTranscript(messages)
    }

    /** Mount: only the greeting, empty input, nobody typing (components/PetOasisView.tsx:18-22). */
    constructor ()
      ensures messages == [Message(ModelRole, GREETING)]
      ensures input == "" && !isTyping
      ensures Valid()
    {
      messages := [Message(ModelRole, GREETING)];
      input := "";
      isTyping := false;
    }

    /** The send button is disabled for blank input or while a reply is pending (components/PetOasisView.tsx:274). */
    predicate SendDisabled()
      reads this
    {
      Trim(input) == "" || isTyping
    }

    /** Typing into the field (components/PetOasisView.tsx:267). */
    method SetInput(text: string)
      modifies this
      ensures input == text
      ensures messages == old(messages) && isTyping == old(isTyping)
    {
      input := text;
    }

    /**
     * `handleSend` (components/PetOasisView.tsx:33-61) as one step: blank input changes
     * nothing; otherwise the input is cleared, the untrimmed text is appended
     * as the learner's message, then exactly one reply from the companion,
     * and the typing flag ends cleared.
     */
    method HandleSend(reply: Reply)
      requires Valid()
      modifies this
      ensures Valid()
      ensures Trim(old(input)) == "" ==>
        messages == old(messages) && input == old(input) && isTyping == old(isTyping)
      ensures Trim(old(input)) != "" ==>
        && messages == old(messages) + [Message(UserRole, old(input)), Message(ModelRole, ReplyText(reply))]
        && input == ""
        && !isTyping
    {
      if Trim(input) == "" {
        return;
      }
      ghost var before := messages;
      var userMsg := input;
      input := "";
      messages := messages + [Message(UserRole, userMsg)];
      isTyping := true;
      var text := ReplyText(reply);
      messages := messages + [Message(ModelRole, text)];
      isTyping := false;
      assert messages == before + [Message(UserRole, userMsg), Message(ModelRole, text)];
      TrimEmptyIffBlank(userMsg);
      SendKeepsTranscriptWellFormed(before, userMsg, reply);
    }
  }
}
