/** The browser check-in chatbot of web_app.js: a conversation that runs
    through three stages (journaling, the seven GAD-7 questions, personalised
    support), scores each answer with a keyword classifier and appends every
    displayed line to a message log. The timed pauses between lines are not
    modelled: each handler runs to completion as one step. */
module WebChatbot {
  import opened Text
  import opened Gad7
  import opened Sequences

  // ---------------------------------------------------------------------
  // Keyword classifier
  // ---------------------------------------------------------------------

  /** Phrases that score an answer 0 ("not at all"). */
  const NegationPhrases: seq<string> := ["not at all", "never", "nope", "no "]
  /** Phrases that score an answer 3 ("nearly every day"). */
  const HighPhrases: seq<string> := ["every day", "constantly", "all the time", "always"]
  /** Phrases that score an answer 2 ("more than half the days"). */
  const ModeratePhrases: seq<string> := ["most days", "often", "a lot", "frequently"]

  /** Scores a free-text answer from the phrases in its lower-cased form,
      checking negation first, then high, then moderate frequency; anything
      else scores 1. */
  function SimulateGad7Scoring(response: string): (score: int)
    ensures 0 <= score <= 3
    ensures score == 0 <==> ContainsAny(Lower(response), NegationPhrases)
    ensures score == 3 <==> !ContainsAny(Lower(response), NegationPhrases) && ContainsAny(Lower(response), HighPhrases)
    ensures score == 2 <==> !ContainsAny(Lower(response), NegationPhrases) && !ContainsAny(Lower(response), HighPhrases)
                            && ContainsAny(Lower(response), ModeratePhrases)
    ensures score == 1 <==> !ContainsAny(Lower(response), NegationPhrases) && !ContainsAny(Lower(response), HighPhrases)
                            && !ContainsAny(Lower(response), ModeratePhrases)
  {
    var lower := Lower(response);
    if ContainsAny(lower, NegationPhrases) then 0
    else if ContainsAny(lower, HighPhrases) then 3
    else if ContainsAny(lower, ModeratePhrases) then 2
    else 1
  }

  /** Scoring depends only on the lower-cased text: an answer and its
      lower-cased form always score the same. */
  lemma {:induction false} ScoringIgnoresCase(response: string)
    ensures SimulateGad7Scoring(Lower(response)) == SimulateGad7Scoring(response)
  {
    LowerIdempotent(response);
  }

  /** A negation phrase anywhere decides the score, whatever else the answer
      says; "no " is matched anywhere, also inside a word ("piano every day"
      scores 0 although it names a daily frequency). */
  lemma NegationAnywhere()
    ensures SimulateGad7Scoring("Never, it happens every day") == 0
    ensures SimulateGad7Scoring("Piano every day") == 0
  {
    assert SubstringAt(Lower("Never, it happens every day"), NegationPhrases[1], 0);
    assert SubstringAt(Lower("Piano every day"), NegationPhrases[3], 3);
  }

  /** Without a negation phrase a high-frequency phrase wins over a
      moderate one. */
  lemma HighBeatsModerate()
    ensures SimulateGad7Scoring("Always, a lot") == 3
  {
    var lower := Lower("Always, a lot");
    assert lower == "always, a lot";
    forall k | 0 <= k < |NegationPhrases| ensures !Contains(lower, NegationPhrases[k]) {
      FirstCharAbsent(lower, NegationPhrases[k]);
    }
    assert SubstringAt(lower, HighPhrases[3], 0);
  }

  /** A moderate phrase alone scores 2. */
  lemma ModerateAlone()
    ensures SimulateGad7Scoring("A lot") == 2
  {
    var lower := Lower("A lot");
    assert lower == "a lot";
    forall k | 0 <= k < |NegationPhrases| ensures !Contains(lower, NegationPhrases[k]) {
      FirstCharAbsent(lower, NegationPhrases[k]);
    }
    FirstCharAbsent(lower, HighPhrases[0]);
    FirstCharAbsent(lower, HighPhrases[1]);
    assert !ContainsAny(lower, HighPhrases);
    assert SubstringAt(lower, ModeratePhrases[2], 0);
  }

  /** An answer that names no phrase scores 1. */
  lemma DefaultScore()
    ensures SimulateGad7Scoring("Just slightly") == 1
  {
    var lower := Lower("Just slightly");
    assert lower == "just slightly";
    forall k | 0 <= k < |NegationPhrases| ensures !Contains(lower, NegationPhrases[k]) {
      FirstCharAbsent(lower, NegationPhrases[k]);
    }
    forall k | 0 <= k < |HighPhrases| ensures !Contains(lower, HighPhrases[k]) {
      FirstCharAbsent(lower, HighPhrases[k]);
    }
    forall k | 0 <= k < |ModeratePhrases| ensures !Contains(lower, ModeratePhrases[k]) {
      FirstCharAbsent(lower, ModeratePhrases[k]);
    }
  }

  // ---------------------------------------------------------------------
  // The script: every line the chatbot can show
  // ---------------------------------------------------------------------

  /** A line of the conversation. The fixed lines of the script are named by
      their place in it; `LineText` gives the exact text each one displays
      (the leading emoji of the original lines are left out). */
  datatype Line =
    | WelcomeTitle | WelcomeJournaling | WelcomeAssessment | WelcomeSupport | WelcomeImportant
    | ReflectionStart | SafeSpace | JournalingPrompt
    | JournalThanks | JournalNoted
    | AssessmentStart | AssessmentPurpose | AssessmentHonesty
    | QuestionHeader(number: nat)
    | Question(item: nat)
    | Empathy(item: nat)
    | AssessmentComplete
    | AnxietyLevel(severity: Severity)
    | TotalScore(total: nat)
    | ProfessionalSupport
    | SummaryHeader
    | Summary(focus: nat)
    | FinalHeader
    | SupportLine(index: nat)
    | Farewell
    | SupportThanks
    | SupportInvite
    | UserText(text: string)

  datatype Author = User | Bot | System

  /** One displayed chat entry: who shows it and which line it is (the
      display timestamp is not modelled). */
  datatype Message = Message(author: Author, line: Line)

  /** Number of closing words of support. */
  const SupportLineCount: nat := 5


  const WelcomeTitleText: string := "Welcome to Your Mental Health Check-in"
  const WelcomeJournalingText: string :=
    "<strong>Personal Journaling:</strong> We'll start with a reflection space where you can share your thoughts about your week in a judgment-free environment."
  const WelcomeAssessmentText: string :=
    "<strong>Mental Health Assessment:</strong> Next, I'll ask you some questions about your wellbeing to help me understand your current mental state and needs."
  const WelcomeSupportText: string :=
    "<strong>Personalized Support:</strong> Finally, you'll receive tailored coping strategies and mental health resources based on your responses."
  const WelcomeImportantText: string :=
    "<strong>Important:</strong> This is a supportive tool, not a replacement for professional therapy. If you're experiencing a crisis, please contact emergency services or a crisis hotline."
  const ReflectionStartText: string := "Let's begin with your personal reflection."
  const SafeSpaceText: string :=
    "This is a safe space for you to share your thoughts about your week. You can write about how you've been feeling emotionally, any challenges or stressors you've faced, positive moments or achievements, or anything else that's been on your mind."
  const JournalingPromptText: string :=
    "Please take a few moments to write about your week. There's no right or wrong way to express yourself here."
  const JournalThanksText: string := "Thank you for sharing!"
  const JournalNotedText: string := "Your reflections have been noted for our conversation."
  const AssessmentStartText: string :=
    "Now I'd like to ask you some questions about how you've been feeling lately."
  const AssessmentPurposeText: string :=
    "This helps me understand your current mental state so I can provide better support."
  const AssessmentHonestyText: string :=
    "Please answer honestly - there are no right or wrong answers."
  const AssessmentCompleteText: string := "Assessment Complete"
  const ProfessionalSupportText: string :=
    "Based on your responses, you might benefit from professional support. Consider reaching out to a mental health professional for personalized guidance."
  const SummaryHeaderText: string := "Your Personalized Mental Health Summary"
  const FinalHeaderText: string := "Final Words of Support"
  const FarewellText: string :=
    "Take care of yourself. You matter, and your wellbeing is important."
  const SupportThanksText: string :=
    "Thank you for continuing to share. Based on our conversation, I'm here to provide ongoing support and resources."
  const SupportInviteText: string :=
    "Would you like to explore more coping strategies or discuss anything else that's on your mind?"

  const QuestionPrefix: string := "Question "
  const QuestionSuffix: string := " of 7:"
  const AnxietyLevelPrefix: string := "Your anxiety level appears to be: "
  const TotalPrefix: string := "Total score: "
  const TotalSuffix: string := " out of 21"
  const ResponseOpening: string :=
    "Thank you for sharing your thoughts and taking the time for this assessment. I can see that "
  const ResponseMiddle: string :=
    " has been particularly challenging for you lately. \n\nHere's a personalized strategy that might help: "
  const ResponseClosing: string :=
    "\n\nRemember, you're taking positive steps by being mindful of your mental health. These feelings are manageable, and you have the strength to work through them."

  /** The question of item `k` (0-based), in GAD-7 item order; the chatbot
      keeps these in its question list. */
  function QuestionText(k: nat): string
    requires k < ItemCount
  {
    match k
    case 0 =>
      "To start, over the last couple of weeks, how often have you been feeling nervous, anxious, or on edge?"
    case 1 =>
      "How about being able to stop or control your worrying? How often has that been a challenge?"
    case 2 =>
      "And what about worrying too much about different things? How often has that been happening?"
    case 3 => "Have you had much trouble relaxing over the past two weeks?"
    case 4 =>
      "How often have you been feeling so restless that it's hard to sit still?"
    case 5 =>
      "What about becoming easily annoyed or irritable? Has that been happening often?"
    case _ =>
      "And lastly, how often have you felt afraid, as if something awful might happen?"
  }
  /** The empathy line shown after a score of 2 or 3 on item `k`. */
  function EmpathyText(k: nat): string
    requires k < ItemCount
  {
    match k
    case 0 =>
      "I can hear that this has been challenging for you. Thank you for sharing."
    case 1 =>
      "That sounds really difficult. It takes courage to acknowledge these feelings."
    case 2 =>
      "I appreciate you being open about this. These experiences can be really tough."
    case 3 =>
      "It's understandable to feel this way. Thank you for trusting me with this."
    case 4 =>
      "That must be exhausting. I'm glad you're taking steps to address this."
    case 5 =>
      "These feelings are valid. Thank you for sharing something so personal."
    case _ =>
      "I can sense this has been weighing on you. Your awareness is a strength."
  }
  /** The symptom item `k` is about, as named in the personalised summary. */
  function SymptomText(k: nat): string
    requires k < ItemCount
  {
    match k
    case 0 => "feeling nervous or anxious"
    case 1 => "uncontrollable worrying"
    case 2 => "worrying about different things"
    case 3 => "trouble relaxing"
    case 4 => "restlessness"
    case 5 => "irritability"
    case _ => "feeling afraid"
  }
  /** The coping strategy offered for the symptom of item `k`. */
  function StrategyText(k: nat): string
    requires k < ItemCount
  {
    match k
    case 0 =>
      "When you feel that anxious energy, try the '5-4-3-2-1' grounding technique. Look around and name 5 things you can see, 4 things you can touch, 3 things you can hear, 2 things you can smell, and 1 thing you can taste."
    case 1 =>
      "Try scheduling a 'worry time'. Set aside 15 minutes each day to let yourself worry about everything on your mind. When a worry pops up outside that time, jot it down and tell yourself you'll deal with it during your scheduled time."
    case 2 =>
      "When your mind is racing with different worries, grab a piece of paper and do a 'brain dump'. Write down every single thing you're worried about, big or small. Often, just getting them out of your head and onto paper can make them feel more manageable."
    case 3 =>
      "Try 'progressive muscle relaxation'. Starting with your toes, tense a muscle group for five seconds, then release it for thirty seconds. Work your way up your body. This physical release can lead to mental relaxation."
    case 4 =>
      "Channel that restless energy into a simple, repetitive physical activity. This could be walking around the room, tidying up a small space, or stretching. Giving the energy a purpose can help it dissipate."
    case 5 =>
      "When you feel irritation rising, focus on your breath. Take a slow, deep breath in through your nose for four counts, hold it for four counts, and exhale slowly through your mouth for six counts. Repeat this a few times to calm your nervous system."
    case _ =>
      "When you feel that sense of dread, gently challenge the thought. Ask yourself: 'What is the evidence for this awful thing happening? What is a more likely outcome?' This technique, called cognitive restructuring, can help break the cycle of catastrophic thinking."
  }
  /** The `k`-th closing word of support. */
  function SupportLineText(k: nat): string
    requires k < SupportLineCount
  {
    match k
    case 0 =>
      "You've taken a brave and important step by checking in with your mental health today."
    case 1 =>
      "Remember that healing and growth are ongoing processes - be patient with yourself."
    case 2 =>
      "You have the strength to work through these challenges, and support is available."
    case 3 =>
      "Consider making this check-in a regular part of your self-care routine."
    case _ =>
      "If you're struggling, don't hesitate to reach out to a mental health professional."
  }

  /** The closing summary about item `focus`: an opening, the symptom and the
      coping strategy of that item, and a closing. */
  function SummaryText(focus: nat): string
    requires focus < ItemCount
  {
    ResponseOpening + SymptomText(focus) + ResponseMiddle + StrategyText(focus) + ResponseClosing
  }

  /** The text of a script line that carries no parameter (empty for the
      others, whose text `LineText` builds). */
  function FixedText(line: Line): string {
    match line
    case WelcomeTitle => WelcomeTitleText
    case WelcomeJournaling => WelcomeJournalingText
    case WelcomeAssessment => WelcomeAssessmentText
    case WelcomeSupport => WelcomeSupportText
    case WelcomeImportant => WelcomeImportantText
    case ReflectionStart => ReflectionStartText
    case SafeSpace => SafeSpaceText
    case JournalingPrompt => JournalingPromptText
    case JournalThanks => JournalThanksText
    case JournalNoted => JournalNotedText
    case AssessmentStart => AssessmentStartText
    case AssessmentPurpose => AssessmentPurposeText
    case AssessmentHonesty => AssessmentHonestyText
    case AssessmentComplete => AssessmentCompleteText
    case ProfessionalSupport => ProfessionalSupportText
    case SummaryHeader => SummaryHeaderText
    case FinalHeader => FinalHeaderText
    case Farewell => FarewellText
    case SupportThanks => SupportThanksText
    case SupportInvite => SupportInviteText
    case _ => []
  }

  /** Lines whose text depends on the value they carry. */
  predicate HasParameter(line: Line) {
    line.QuestionHeader? || line.Question? || line.Empathy? || line.AnxietyLevel?
    || line.TotalScore? || line.Summary? || line.SupportLine? || line.UserText?
  }

  /** The text of a line that carries a value. An index past the end of its
      table shows nothing; the chatbot never produces one. */
  function ParameterText(line: Line): string {
    match line
    case QuestionHeader(n) => QuestionPrefix + NatToString(n) + QuestionSuffix
    case Question(i) => if i < ItemCount then QuestionText(i) else []
    case Empathy(i) => if i < ItemCount then EmpathyText(i) else []
    case AnxietyLevel(sev) => AnxietyLevelPrefix + SeverityName(sev)
    case TotalScore(t) => TotalPrefix + NatToString(t) + TotalSuffix
    case Summary(k) => if k < ItemCount then SummaryText(k) else []
    case SupportLine(i) => if i < SupportLineCount then SupportLineText(i) else []
    case UserText(s) => s
    case _ => []
  }

  /** The text a line displays. */
  function LineText(line: Line): string {
    if HasParameter(line) then ParameterText(line) else FixedText(line)
  }

  // ---------------------------------------------------------------------
  // Personalised response
  // ---------------------------------------------------------------------

  /** The item the closing summary is about: the highest-scoring one, the
      first among equal maxima. */
  function FocusItem(scores: seq<int>): (k: nat)
    requires 0 < |scores| <= ItemCount
    ensures k < |scores|
    ensures forall j :: 0 <= j < |scores| ==> scores[j] <= scores[k]
    ensures forall j :: 0 <= j < k ==> scores[j] < scores[k]
  {
    HighestIndex(scores)
  }

  /** The text of the closing summary for the recorded scores. */
  function PersonalizedResponse(scores: seq<int>): string
    requires 0 < |scores| <= ItemCount
  {
    SummaryText(FocusItem(scores))
  }

  /** The summary names the symptom of the highest-scoring item and offers
      the strategy for that same item. */
  lemma ResponseNamesFocusItem(scores: seq<int>)
    requires 0 < |scores| <= ItemCount
    ensures Contains(PersonalizedResponse(scores), SymptomText(FocusItem(scores)))
    ensures Contains(PersonalizedResponse(scores), StrategyText(FocusItem(scores)))
  {
    var k := FocusItem(scores);
    ContainsInnerParts(ResponseOpening, SymptomText(k), ResponseMiddle, StrategyText(k), ResponseClosing);
  }

  // ---------------------------------------------------------------------
  // The scripted blocks
  // ---------------------------------------------------------------------

  function WelcomeMessages(): seq<Message> {
    [ Message(Bot, WelcomeTitle), Message(Bot, WelcomeJournaling), Message(Bot, WelcomeAssessment),
      Message(Bot, WelcomeSupport), Message(Bot, WelcomeImportant) ]
  }

  function JournalingIntro(): seq<Message> {
    [ Message(System, ReflectionStart), Message(Bot, SafeSpace), Message(Bot, JournalingPrompt) ]
  }

  function JournalAck(): seq<Message> {
    [ Message(Bot, JournalThanks), Message(System, JournalNoted) ]
  }

  function AssessmentIntro(): seq<Message> {
    [ Message(System, AssessmentStart), Message(Bot, AssessmentPurpose), Message(Bot, AssessmentHonesty) ]
  }

  /** The two lines that ask item `index` (0-based): its 1-based number, then
      the question. */
  function QuestionMessages(index: nat): seq<Message> {
    [ Message(System, QuestionHeader(index + 1)), Message(Bot, Question(index)) ]
  }

  function SupportLineMessages(): seq<Message> {
    seq(SupportLineCount, i requires 0 <= i => Message(Bot, SupportLine(i)))
  }

  function FinalSupportMessages(): seq<Message> {
    [Message(System, FinalHeader)] + SupportLineMessages() + [Message(Bot, Farewell)]
  }

  /** What the support stage shows on entry. */
  function SupportStageMessages(scores: seq<int>): seq<Message>
    requires 0 < |scores| <= ItemCount
  {
    [ Message(System, SummaryHeader), Message(Bot, Summary(FocusItem(scores))) ] + FinalSupportMessages()
  }

  /** The three report lines: the completion notice, the severity band and
      the total. */
  function ReportMessages(total: nat): seq<Message> {
    [ Message(System, AssessmentComplete), Message(Bot, AnxietyLevel(SeverityOf(total))), Message(Bot, TotalScore(total)) ]
  }

  /** The professional-support line, shown for totals of 10 and above. */
  function AdviceMessages(total: int): seq<Message> {
    if RecommendsProfessionalSupport(total) then [Message(Bot, ProfessionalSupport)] else []
  }

  /** Everything shown once the seventh answer is scored: the report, the
      advice line when it applies, and the support stage. */
  function CompletionMessages(scores: seq<int>): seq<Message>
    requires |scores| == ItemCount && ValidScores(scores)
  {
    ReportMessages(Sum(scores)) + AdviceMessages(Sum(scores)) + SupportStageMessages(scores)
  }

  /** The empathy line shown after an answer to item `index` that scores 2 or 3. */
  function EmpathyMessages(index: nat, score: int): seq<Message> {
    if score >= 2 then [Message(Bot, Empathy(index))] else []
  }

  /** What follows a scored answer to item `index`: the next question or,
      after the seventh answer, the completion messages for all scores. */
  function NextStepMessages(index: nat, scores: seq<int>): seq<Message>
    requires index < ItemCount && |scores| == index + 1 && ValidScores(scores)
  {
    if index + 1 < ItemCount then QuestionMessages(index + 1) else CompletionMessages(scores)
  }

  /** The reply to the answer of item `index`: an empathy line for scores of
      2 or 3, then the next question or, after the seventh, the report. */
  function AssessmentReply(index: nat, scores: seq<int>, answer: string): seq<Message>
    requires index < ItemCount && |scores| == index && ValidScores(scores)
  {
    var score := SimulateGad7Scoring(answer);
    EmpathyMessages(index, score) + NextStepMessages(index, scores + [score])
  }

  function SupportAck(): seq<Message> {
    [ Message(Bot, SupportThanks), Message(Bot, SupportInvite) ]
  }

  /** The report recommends professional support exactly when the total is
      10 or more. */
  lemma AdviceShownIffTotalAtLeastTen(scores: seq<int>)
    requires |scores| == ItemCount && ValidScores(scores)
    ensures Message(Bot, ProfessionalSupport) in CompletionMessages(scores) <==> Sum(scores) >= 10
  {
    var support := SupportStageMessages(scores);
    forall i | 0 <= i < |support| ensures support[i].line != ProfessionalSupport {
      if 3 <= i < 3 + SupportLineCount {
        assert support[i] == SupportLineMessages()[i - 3];
      }
    }
  }

  /** The send control is disabled while a reply is pending or while the
      input is blank. */
  function SendDisabled(input: string, waitingForResponse: bool): (disabled: bool)
    ensures disabled <==> waitingForResponse || IsBlank(input)
  {
    var hasText := |Trim(input)| > 0;
    !hasText || waitingForResponse
  }

  // ---------------------------------------------------------------------
  // The conversation state machine
  // ---------------------------------------------------------------------

  lemma AppendAssoc(a: seq<Message>, b: seq<Message>, c: seq<Message>)
    ensures a + b + c == a + (b + c)
  {
  }

  class MentalHealthChatbot {
    /** 1 = journaling, 2 = assessment, 3 = support. */
    var currentStage: int
    var currentQuestionIndex: int
    var gad7Scores: seq<int>
    var journalEntry: string
    /** Every line shown in the chat, in display order. */
    var log: seq<Message>

    ghost predicate Valid()
      reads this
    {
      && currentStage in {1, 2, 3}
      && 0 <= currentQuestionIndex <= ItemCount
      && |gad7Scores| == currentQuestionIndex
      && ValidScores(gad7Scores)
      && (currentStage == 1 ==> currentQuestionIndex == 0)
      && (currentStage == 2 ==> currentQuestionIndex < ItemCount)
      && (currentStage == 3 ==> currentQuestionIndex == ItemCount)
    }

    /** A new session shows the welcome sequence and opens the journaling stage. */
    constructor ()
      ensures Valid()
      ensures currentStage == 1 && currentQuestionIndex == 0 && gad7Scores == [] && journalEntry == []
      ensures log == WelcomeMessages() + JournalingIntro()
    {
      currentStage := 1;
      currentQuestionIndex := 0;
      gad7Scores := [];
      journalEntry := [];
      log := [];
      new;
      StartWelcomeSequence();
    }

    method AddMessage(author: Author, line: Line)
      modifies this
      ensures log == old(log) + [Message(author, line)]
      ensures currentStage == old(currentStage) && currentQuestionIndex == old(currentQuestionIndex)
      ensures gad7Scores == old(gad7Scores) && journalEntry == old(journalEntry)
    {
      log := log + [Message(author, line)];
    }

    method StartWelcomeSequence()
      modifies this
      ensures currentStage == old(currentStage) && currentQuestionIndex == old(currentQuestionIndex)
      ensures gad7Scores == old(gad7Scores) && journalEntry == old(journalEntry)
      ensures log == old(log) + WelcomeMessages() + JournalingIntro()
    {
      AddMessage(Bot, WelcomeTitle);
      AddMessage(Bot, WelcomeJournaling);
      AddMessage(Bot, WelcomeAssessment);
      AddMessage(Bot, WelcomeSupport);
      AddMessage(Bot, WelcomeImportant);
      StartJournalingStage();
    }

    method StartJournalingStage()
      modifies this
      ensures currentStage == old(currentStage) && currentQuestionIndex == old(currentQuestionIndex)
      ensures gad7Scores == old(gad7Scores) && journalEntry == old(journalEntry)
      ensures log == old(log) + JournalingIntro()
    {
      AddMessage(System, ReflectionStart);
      AddMessage(Bot, SafeSpace);
      AddMessage(Bot, JournalingPrompt);
    }

    /** One submitted input: trimmed, ignored when empty, otherwise echoed and
        handled by the current stage. */
    method HandleSendMessage(input: string)
      requires Valid()
      modifies this
      ensures Valid()
      ensures old(currentStage) <= currentStage <= old(currentStage) + 1
      ensures IsBlank(input) ==> unchanged(this)
      ensures !IsBlank(input) && old(currentStage) == 1 ==>
        && currentStage == 2 && currentQuestionIndex == 0 && gad7Scores == []
        && journalEntry == Trim(input)
        && log == old(log) + [Message(User, UserText(Trim(input)))] + JournalAck() + AssessmentIntro() + QuestionMessages(0)
      ensures !IsBlank(input) && old(currentStage) == 2 ==>
        && gad7Scores == old(gad7Scores) + [SimulateGad7Scoring(Trim(input))]
        && currentQuestionIndex == old(currentQuestionIndex) + 1
        && currentStage == (if currentQuestionIndex == ItemCount then 3 else 2)
        && journalEntry == old(journalEntry)
        && log == old(log) + [Message(User, UserText(Trim(input)))]
                  + AssessmentReply(old(currentQuestionIndex), old(gad7Scores), Trim(input))
      ensures !IsBlank(input) && old(currentStage) == 3 ==>
        && currentStage == 3 && currentQuestionIndex == old(currentQuestionIndex)
        && gad7Scores == old(gad7Scores) && journalEntry == old(journalEntry)
        && log == old(log) + [Message(User, UserText(Trim(input)))] + SupportAck()
    {
      var message := Trim(input);
      if message == [] {
        return;
      }
      AddMessage(User, UserText(message));
      if currentStage == 1 {
        HandleJournalStage(message);
      } else if currentStage == 2 {
        HandleAssessmentStage(message);
      } else if currentStage == 3 {
        HandleSupportStage(message);
      }
    }

    method HandleJournalStage(message: string)
      requires Valid() && currentStage == 1
      modifies this
      ensures Valid()
      ensures currentStage == 2 && currentQuestionIndex == 0 && gad7Scores == [] && journalEntry == message
      ensures log == old(log) + JournalAck() + AssessmentIntro() + QuestionMessages(0)
    {
      journalEntry := message;
      AddMessage(Bot, JournalThanks);
      AddMessage(System, JournalNoted);
      StartAssessmentStage();
    }

    method StartAssessmentStage()
      requires Valid() && currentStage == 1
      modifies this
      ensures Valid()
      ensures currentStage == 2 && currentQuestionIndex == 0 && gad7Scores == [] && journalEntry == old(journalEntry)
      ensures log == old(log) + AssessmentIntro() + QuestionMessages(0)
    {
      currentStage := 2;
      AddMessage(System, AssessmentStart);
      AddMessage(Bot, AssessmentPurpose);
      AddMessage(Bot, AssessmentHonesty);
      AskNextQuestion();
    }

    method AskNextQuestion()
      requires 0 <= currentQuestionIndex < ItemCount
      modifies this
      ensures currentStage == old(currentStage) && currentQuestionIndex == old(currentQuestionIndex)
      ensures gad7Scores == old(gad7Scores) && journalEntry == old(journalEntry)
      ensures log == old(log) + QuestionMessages(currentQuestionIndex)
    {
      var questionNumber := currentQuestionIndex + 1;
      AddMessage(System, QuestionHeader(questionNumber));
      AddMessage(Bot, Question(currentQuestionIndex));
    }

    /** Scores the answer, records it, and asks the next question or, after
        the seventh answer, completes the assessment. */
    method HandleAssessmentStage(message: string)
      requires Valid() && currentStage == 2
      modifies this
      ensures Valid()
      ensures gad7Scores == old(gad7Scores) + [SimulateGad7Scoring(message)]
      ensures currentQuestionIndex == old(currentQuestionIndex) + 1
      ensures currentStage == (if currentQuestionIndex == ItemCount then 3 else 2)
      ensures journalEntry == old(journalEntry)
      ensures log == old(log) + AssessmentReply(old(currentQuestionIndex), old(gad7Scores), message)
    {
      ghost var before := log;
      var score := SimulateGad7Scoring(message);
      gad7Scores := gad7Scores + [score];
      if score >= 2 {
        AddMessage(Bot, Empathy(currentQuestionIndex));
      }
      ghost var empathy := EmpathyMessages(currentQuestionIndex, score);
      assert log == before + empathy;
      currentQuestionIndex := currentQuestionIndex + 1;
      if currentQuestionIndex < ItemCount {
        AskNextQuestion();
      } else {
        CompleteAssessment();
      }
      AppendAssoc(before, empathy, NextStepMessages(currentQuestionIndex - 1, gad7Scores));
    }

    /** Reports the total and its band, then opens the support stage. */
    method CompleteAssessment()
      requires currentStage == 2 && currentQuestionIndex == ItemCount
      requires |gad7Scores| == ItemCount && ValidScores(gad7Scores)
      modifies this
      ensures Valid() && currentStage == 3
      ensures currentQuestionIndex == old(currentQuestionIndex)
      ensures gad7Scores == old(gad7Scores) && journalEntry == old(journalEntry)
      ensures log == old(log) + CompletionMessages(gad7Scores)
    {
      var totalScore := Sum(gad7Scores);
      AddMessage(System, AssessmentComplete);
      var severity := SeverityOf(totalScore);
      AddMessage(Bot, AnxietyLevel(severity));
      AddMessage(Bot, TotalScore(totalScore));
      if totalScore >= 10 {
        AddMessage(Bot, ProfessionalSupport);
      }
      StartSupportStage(totalScore);
    }

    method StartSupportStage(totalScore: int)
      requires currentQuestionIndex == ItemCount
      requires |gad7Scores| == ItemCount && ValidScores(gad7Scores)
      modifies this
      ensures Valid() && currentStage == 3
      ensures currentQuestionIndex == old(currentQuestionIndex)
      ensures gad7Scores == old(gad7Scores) && journalEntry == old(journalEntry)
      ensures log == old(log) + SupportStageMessages(gad7Scores)
    {
      currentStage := 3;
      AddMessage(System, SummaryHeader);
      var response := GeneratePersonalizedResponse(totalScore);
      AddMessage(Bot, response);
      ShowFinalSupport();
    }

    /** The summary line for the recorded scores: about the highest-scoring
        item, the first among equal maxima (the total is passed but unused). */
    method GeneratePersonalizedResponse(totalScore: int) returns (response: Line)
      requires 0 < |gad7Scores| <= ItemCount
      ensures response == Summary(FocusItem(gad7Scores))
    {
      var highestScore := Max(gad7Scores);
      var highestSymptomIndex := IndexOf(gad7Scores, highestScore);
      response := Summary(highestSymptomIndex);
    }

    method ShowFinalSupport()
      modifies this
      ensures currentStage == old(currentStage) && currentQuestionIndex == old(currentQuestionIndex)
      ensures gad7Scores == old(gad7Scores) && journalEntry == old(journalEntry)
      ensures log == old(log) + FinalSupportMessages()
    {
      AddMessage(System, FinalHeader);
      for i := 0 to SupportLineCount
        invariant currentStage == old(currentStage) && currentQuestionIndex == old(currentQuestionIndex)
        invariant gad7Scores == old(gad7Scores) && journalEntry == old(journalEntry)
        invariant log == old(log) + [Message(System, FinalHeader)] + SupportLineMessages()[..i]
      {
        AddMessage(Bot, SupportLine(i));
      }
      AddMessage(Bot, Farewell);
    }

    method HandleSupportStage(message: string)
      requires Valid() && currentStage == 3
      modifies this
      ensures Valid()
      ensures currentStage == 3 && currentQuestionIndex == old(currentQuestionIndex)
      ensures gad7Scores == old(gad7Scores) && journalEntry == old(journalEntry)
      ensures log == old(log) + SupportAck()
    {
      AddMessage(Bot, SupportThanks);
      AddMessage(Bot, SupportInvite);
    }
  }
}
