/**
 * The scripted interview chat: an opening prompt chosen by the exam, a fixed table of follow-up
 * questions chosen by the exam, the candidate's answer and the length of the conversation, and
 * a message list that only grows until it is reset.
 */
module AIChat {
  import opened Wrappers
  import opened Text
  import opened Records

  datatype Speaker = Assistant | User

  datatype Message = Message(role: Speaker, content: string)

  const Technical := "Technical"

  // The assistant's follow-up questions.
  const DebuggingQuestion := "Thank you for sharing that. Now, let's dive into some technical questions.\n\nCan you explain how you would approach debugging a complex issue in a production environment?"
  const DomainIntro := "That's a good approach to debugging. Let's move to a more specific question related to your technical skills.\n\n"
  const FrontendQuestion := "How would you optimize the performance of a React application that's rendering a large dataset?"
  const BackendQuestion := "How would you design a scalable API that needs to handle high traffic and maintain data consistency?"
  const DataQuestion := "Can you explain your approach to cleaning and preparing a large dataset for analysis?"
  const ProjectQuestion := "Tell me about a challenging technical project you worked on and how you overcame obstacles."
  const StayUpdatedQuestion := "Thank you for your detailed answer. One more question: How do you stay updated with the latest technologies and best practices in your field?"
  const SituationQuestion := "Thank you for introducing yourself. I'd like to understand more about your work style.\n\nCan you describe a challenging situation you faced in a previous role and how you handled it?"
  const PrioritiesQuestion := "That's a great example of problem-solving. Now I'd like to know:\n\nHow do you prioritize tasks when you have multiple deadlines approaching?"
  const TeamworkQuestion := "Effective prioritization is important. Let's talk about teamwork:\n\nCan you tell me about a time when you had to collaborate with a difficult team member? How did you handle it?"
  const FiveYearsQuestion := "Thank you for sharing that experience. Final question:\n\nWhere do you see yourself professionally in five years, and how does this role align with your career goals?"

  /** The opening of the technical template, up to the exam title. */
  const TechnicalOpening := "Hello! I'm your technical interviewer for the "
  const TechnicalLevel := " assessment. This is a "
  const TechnicalEvaluation := " level technical evaluation. "
  const TechnicalClosing := "\n\nI'll ask you a series of technical questions related to the position you're applying for. Please respond to each question with your best answer. I'll provide feedback and follow-up questions based on your responses.\n\nLet's begin with your first question: Please introduce yourself and explain your relevant technical experience for this position."
  /** The opening of the general template, up to the exam title. */
  const GeneralOpening := "Hello! I'm your interviewer for the "
  const GeneralEvaluate := " assessment. This is designed to evaluate your "
  const GeneralFit := " skills and fit for the role. "
  const GeneralClosing := "\n\nI'll ask you a series of questions to better understand your work style, problem-solving approach, and how you handle various professional situations.\n\nLet's begin with your first question: Could you tell me about yourself and what interests you about this position?"

  /** A template literal: its fixed parts and interpolated values, joined in order. */
  function Concat(parts: seq<string>): string {
    if parts == [] then "" else parts[0] + Concat(parts[1..])
  }

  /** Every part of a template occurs in the result, right after the parts before it. */
  lemma {:induction false} ConcatOccurs(parts: seq<string>, k: nat)
    requires k < |parts|
    ensures OccursAt(Concat(parts), parts[k], |Concat(parts[..k])|)
  {
    var whole := Concat(parts);
    if k == 0 {
      assert parts[..0] == [];
      assert whole == parts[0] + Concat(parts[1..]);
      assert whole[..|parts[0]|] == parts[0];
    } else {
      var tail := parts[1..];
      ConcatOccurs(tail, k - 1);
      assert tail[k - 1] == parts[k];
      var before := Concat(tail[..k - 1]);
      assert parts[..k] == [parts[0]] + tail[..k - 1];
      assert parts[..k][1..] == tail[..k - 1];
      assert Concat(parts[..k]) == parts[0] + before;
      var t := Concat(tail);
      assert whole == parts[0] + t;
      assert t[|before|..|before| + |parts[k]|] == parts[k];
      assert whole[|parts[0]| + |before|..|parts[0]| + |before| + |parts[k]|] == parts[k];
    }
  }

  /** The parts of `getInitialPrompt`'s template for an exam. */
  function PromptParts(e: Exam): (r: seq<string>)
    ensures |r| == 7
  {
    if e.category == Technical then
      [TechnicalOpening, e.title, TechnicalLevel, e.difficulty, TechnicalEvaluation, OrEmpty(e.description), TechnicalClosing]
    else
      [GeneralOpening, e.title, GeneralEvaluate, Lower(e.category), GeneralFit, OrEmpty(e.description), GeneralClosing]
  }

  /** `getInitialPrompt(exam)`. */
  function InitialPrompt(exam: Option<Exam>): string {
    match exam
    case None => ""
    case Some(e) => Concat(PromptParts(e))
  }

  /**
   * The prompt is empty without an exam; otherwise it opens with the template its category
   * selects and names the exam's title right after.
   */
  lemma InitialPromptChoice(exam: Option<Exam>)
    ensures exam.None? ==> InitialPrompt(exam) == ""
    ensures exam.Some? ==> InitialPrompt(exam) != ""
    ensures exam.Some? && exam.value.category == Technical ==>
      OccursAt(InitialPrompt(exam), TechnicalOpening, 0) && OccursAt(InitialPrompt(exam), exam.value.title, |TechnicalOpening|)
    ensures exam.Some? && exam.value.category != Technical ==>
      OccursAt(InitialPrompt(exam), GeneralOpening, 0) && OccursAt(InitialPrompt(exam), exam.value.title, |GeneralOpening|)
  {
    if exam.Some? {
      var parts := PromptParts(exam.value);
      ConcatOccurs(parts, 0);
      ConcatOccurs(parts, 1);
      assert parts[..0] == [] && parts[..1] == [parts[0]];
      assert Concat(parts[..1]) == parts[0] + Concat([]);
      assert |parts[0]| > 0;
    }
  }

  /** The general template names the exam's category in lower case. */
  lemma InitialPromptMentionsCategory(e: Exam)
    requires e.category != Technical
    ensures Contains(InitialPrompt(Some(e)), Lower(e.category))
  {
    var parts := PromptParts(e);
    ConcatOccurs(parts, 3);
  }

  /** The question for a technical exam whose answer mentions debugging or production. */
  function DomainQuestion(title: string): (r: string)
    ensures Contains(Lower(title), "frontend") ==> r == FrontendQuestion
    ensures !Contains(Lower(title), "frontend") && Contains(Lower(title), "backend") ==> r == BackendQuestion
    ensures !Contains(Lower(title), "frontend") && !Contains(Lower(title), "backend") && Contains(Lower(title), "data")
            ==> r == DataQuestion
    ensures !Contains(Lower(title), "frontend") && !Contains(Lower(title), "backend") && !Contains(Lower(title), "data")
            ==> r == ProjectQuestion
  {
    var t := Lower(title);
    if Contains(t, "frontend") then FrontendQuestion
    else if Contains(t, "backend") then BackendQuestion
    else if Contains(t, "data") then DataQuestion
    else ProjectQuestion
  }

  /** Whether the lowercased answer includes one of the keywords. */
  predicate Mentions(input: string, a: string, b: string) {
    Contains(Lower(input), a) || Contains(Lower(input), b)
  }

  /**
   * The assistant's reply to `input` when the conversation had `historyLen` messages before the
   * answer was added.
   */
  function Reply(exam: Exam, input: string, historyLen: nat): string {
    if exam.category == Technical then
      if Contains(Lower(input), "experience") || historyLen <= 1 then DebuggingQuestion
      else if Mentions(input, "debug", "production") then DomainIntro + DomainQuestion(exam.title)
      else StayUpdatedQuestion
    else
      if historyLen <= 1 then SituationQuestion
      else if Mentions(input, "challenge", "situation") then PrioritiesQuestion
      else if Mentions(input, "prioritize", "deadline") then TeamworkQuestion
      else FiveYearsQuestion
  }

  /** The decision table for technical exams, row by row. */
  lemma TechnicalReplies(exam: Exam, input: string, historyLen: nat)
    requires exam.category == Technical
    ensures Contains(Lower(input), "experience") || historyLen <= 1 ==> Reply(exam, input, historyLen) == DebuggingQuestion
    ensures !Contains(Lower(input), "experience") && historyLen > 1 && Mentions(input, "debug", "production") ==>
      Reply(exam, input, historyLen) == DomainIntro + DomainQuestion(exam.title)
    ensures !Contains(Lower(input), "experience") && historyLen > 1 && !Mentions(input, "debug", "production") ==>
      Reply(exam, input, historyLen) == StayUpdatedQuestion
  {
  }

  /** The decision table for every other exam, row by row. */
  lemma GeneralReplies(exam: Exam, input: string, historyLen: nat)
    requires exam.category != Technical
    ensures historyLen <= 1 ==> Reply(exam, input, historyLen) == SituationQuestion
    ensures historyLen > 1 && Mentions(input, "challenge", "situation") ==> Reply(exam, input, historyLen) == PrioritiesQuestion
    ensures historyLen > 1 && !Mentions(input, "challenge", "situation") && Mentions(input, "prioritize", "deadline") ==>
      Reply(exam, input, historyLen) == TeamworkQuestion
    ensures historyLen > 1 && !Mentions(input, "challenge", "situation") && !Mentions(input, "prioritize", "deadline") ==>
      Reply(exam, input, historyLen) == FiveYearsQuestion
  {
  }

  /** The reply depends on the answer only up to ASCII case. */
  lemma ReplyIgnoresCase(exam: Exam, input: string, historyLen: nat)
    ensures Reply(exam, Lower(input), historyLen) == Reply(exam, input, historyLen)
  {
    LowerIdempotent(input);
  }

  /**
   * A title that names "Frontend" anywhere gets the frontend question, whatever else it names
   * (a backend or data domain included).
   */
  lemma {:induction false} FrontendTitleWins(before: string, after: string)
    ensures DomainQuestion(before + "Frontend" + after) == FrontendQuestion
  {
    var title := before + "Frontend" + after;
    assert Lower(title) == Lower(before) + "frontend" + Lower(after);
    assert OccursAt(Lower(title), "frontend", |before|);
  }

  /** A conversation: the assistant speaks first and the two speakers alternate. */
  predicate Alternates(ms: seq<Message>) {
    && (ms != [] ==> ms[0].role == Assistant)
    && forall i :: 0 < i < |ms| ==> ms[i].role != ms[i - 1].role
  }

  /**
   * In an alternating conversation with at least the opening prompt, "at most one message"
   * means the candidate has not answered yet.
   */
  lemma FirstAnswerIff(ms: seq<Message>)
    requires Alternates(ms) && |ms| >= 1
    ensures |ms| <= 1 <==> forall i :: 0 <= i < |ms| ==> ms[i].role == Assistant
  {
    if |ms| > 1 {
      assert ms[1].role != ms[0].role;
    }
  }

  /** A conversation holding only the opening prompt of `exam`. */
  function Opening(exam: Option<Exam>): (r: seq<Message>)
    ensures |r| == 1 && r[0].role == Assistant && Alternates(r)
  {
    [Message(Assistant, InitialPrompt(exam))]
  }

  class Chat {
    var selectedExam: Option<Exam>
    var messages: seq<Message>
    var userInput: string
    var isAILoading: bool

    /**
     * The messages alternate, starting with the assistant, and end with the assistant; a
     * selected exam has its conversation; the loading flag is down between calls. This holds
     * because each call runs its delayed reply to completion; with the real two-second delay, a
     * reset or a second Enter during the wait leaves two messages of one role in a row.
     */
    ghost predicate Valid()
      reads this
    {
      && Alternates(messages)
      && (messages == [] || messages[|messages| - 1].role == Assistant)
      && (selectedExam.Some? ==> messages != [])
      && !isAILoading
    }

    constructor ()
      ensures Valid() && selectedExam == None && messages == [] && userInput == "" && !isAILoading
    {
      selectedExam := None;
      messages := [];
      userInput := "";
      isAILoading := false;
    }

    /** A new `selectedExam` prop: an exam replaces the conversation with its opening prompt. */
    method SelectExam(exam: Option<Exam>)
      requires Valid()
      modifies this`selectedExam, this`messages
      ensures Valid() && selectedExam == exam
      ensures exam.Some? ==> messages == Opening(exam)
      ensures exam.None? ==> messages == old(messages)
    {
      selectedExam := exam;
      if exam.Some? {
        messages := Opening(exam);
      }
    }

    /** The answer box's `onChange`. */
    method SetInput(s: string)
      modifies this`userInput
      ensures userInput == s
    {
      userInput := s;
    }

    /**
     * `handleSendMessage`, with the two-second delay run to completion: the answer is appended,
     * the box cleared, and the reply chosen from the answer and the length the conversation had
     * before the answer.
     */
    method SendMessage() returns (sent: bool)
      requires Valid()
      modifies this`messages, this`userInput, this`isAILoading
      ensures Valid()
      ensures sent <==> Trim(old(userInput)) != "" && selectedExam.Some?
      ensures !sent ==> messages == old(messages) && userInput == old(userInput)
      ensures sent ==>
        && messages == old(messages) + [Message(User, old(userInput)),
                                        Message(Assistant, Reply(selectedExam.value, old(userInput), |old(messages)|))]
        && userInput == "" && !isAILoading
    {
      if Trim(userInput) == "" || selectedExam.None? {
        return false;
      }
      var input := userInput;
      var historyLen := |messages|;
      messages := messages + [Message(User, input)];
      userInput := "";
      isAILoading := true;
      messages := messages + [Message(Assistant, Reply(selectedExam.value, input, historyLen))];
      isAILoading := false;
      sent := true;
    }

    /** `handleResetConversation`: back to the opening prompt; nothing happens without an exam. */
    method ResetConversation()
      requires Valid()
      modifies this`messages
      ensures Valid()
      ensures selectedExam.None? ==> messages == old(messages)
      ensures selectedExam.Some? ==> messages == Opening(selectedExam)
    {
      if selectedExam.Some? {
        messages := Opening(selectedExam);
      }
    }
  }
}
