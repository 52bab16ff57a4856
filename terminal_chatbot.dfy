/** The terminal check-in of app.py: a journaling stage that reads lines
    until two consecutive blank ones, and a GAD-7 stage that asks seven
    questions, turns each answer into a 0..3 score through a language-model
    reply and reports the total and its band. The language model and the
    document store are outside the model: the classifier is a function
    parameter and every store query is represented by the document it
    returned (`None` when it returned nothing or failed). */
module TerminalChatbot {
  import opened Wrappers
  import opened Text
  import opened Gad7
  import opened Sequences

  // ---------------------------------------------------------------------
  // Stage 1: journaling
  // ---------------------------------------------------------------------

  /** One result of `input()`: a typed line, or a keyboard interrupt. */
  datatype Input = Typed(text: string) | Interrupted

  predicate IsBlankInput(x: Input) {
    x.Typed? && IsBlank(x.text)
  }

  /** Reading stops at input `j`: an interrupt, or a blank line right after
      another blank line. */
  predicate EndsAt(inputs: seq<Input>, j: nat)
    requires j < |inputs|
  {
    inputs[j] == Interrupted || (j > 0 && IsBlankInput(inputs[j - 1]) && IsBlankInput(inputs[j]))
  }

  /** The lines kept from the inputs read: the non-blank typed lines, in
      order. */
  function StoredLines(inputs: seq<Input>): (lines: seq<string>)
    ensures |lines| <= |inputs|
    ensures forall k :: 0 <= k < |lines| ==> !IsBlank(lines[k])
  {
    if inputs == [] then []
    else
      var last := inputs[|inputs| - 1];
      StoredLines(inputs[..|inputs| - 1]) + (if last.Typed? && !IsBlank(last.text) then [last.text] else [])
  }

  lemma StoredLinesStep(inputs: seq<Input>, i: nat)
    requires i < |inputs|
    ensures StoredLines(inputs[..i + 1]) ==
            StoredLines(inputs[..i]) + (if inputs[i].Typed? && !IsBlank(inputs[i].text) then [inputs[i].text] else [])
  {
    assert inputs[..i + 1][..i] == inputs[..i];
  }

  /** The entry recorded when nothing was written. */
  const NoEntryText: string := "User chose not to write much today."

  /** The journal entry: the kept lines joined by newlines and stripped, or
      the placeholder when that leaves nothing. */
  function JournalEntry(lines: seq<string>): string {
    var entry := Trim(Join(lines, '\n'));
    if entry == [] then NoEntryText else entry
  }

  lemma JoinStartsWithFirst(pieces: seq<string>, sep: char)
    requires |pieces| >= 1
    ensures |pieces[0]| <= |Join(pieces, sep)| && Join(pieces, sep)[..|pieces[0]|] == pieces[0]
  {
  }

  /** With only non-blank lines kept, the placeholder is used exactly when
      no line was kept; otherwise the entry is the stripped text. */
  lemma EntryFallbackIffNothingStored(lines: seq<string>)
    requires forall k :: 0 <= k < |lines| ==> !IsBlank(lines[k])
    ensures lines == [] ==> JournalEntry(lines) == NoEntryText
    ensures lines != [] ==> JournalEntry(lines) == Trim(Join(lines, '\n')) != []
  {
    if lines != [] {
      var j :| 0 <= j < |lines[0]| && !IsSpace(lines[0][j]);
      JoinStartsWithFirst(lines, '\n');
      assert Join(lines, '\n')[j] == lines[0][j];
      NonBlankSurvivesTrim(Join(lines, '\n'), j);
    }
  }

  /** The reading loop of the journaling stage. It reads until an interrupt
      or a second consecutive blank line and returns the kept lines and the
      number of inputs read; `stopped` is false when the inputs ran out
      first. */
  method CollectJournalLines(inputs: seq<Input>) returns (journalLines: seq<string>, read: nat, stopped: bool)
    ensures read <= |inputs|
    ensures journalLines == StoredLines(inputs[..read])
    ensures forall j :: 0 <= j < read - 1 ==> !EndsAt(inputs, j)
    ensures stopped ==> 0 < read && EndsAt(inputs, read - 1)
    ensures !stopped ==> read == |inputs| && (read == 0 || !EndsAt(inputs, read - 1))
  {
    journalLines := [];
    var emptyLineCount := 0;
    var i := 0;
    while i < |inputs|
      invariant 0 <= i <= |inputs|
      invariant journalLines == StoredLines(inputs[..i])
      invariant emptyLineCount == (if i > 0 && IsBlankInput(inputs[i - 1]) then 1 else 0)
      invariant forall j :: 0 <= j < i ==> !EndsAt(inputs, j)
    {
      var x := inputs[i];
      StoredLinesStep(inputs, i);
      i := i + 1;
      if x.Interrupted? {
        return journalLines, i, true;
      }
      if Trim(x.text) == [] {
        emptyLineCount := emptyLineCount + 1;
        if emptyLineCount >= 2 {
          return journalLines, i, true;
        }
      } else {
        emptyLineCount := 0;
        journalLines := journalLines + [x.text];
      }
    }
    return journalLines, i, false;
  }

  /** The journaling stage: the entry built from the kept lines once reading
      stops; `None` when the inputs ran out first, where `input()` raises an
      error the program does not catch. */
  method Stage1Journaling(inputs: seq<Input>) returns (entry: Option<string>, read: nat)
    ensures read <= |inputs|
    ensures forall j :: 0 <= j < read - 1 ==> !EndsAt(inputs, j)
    ensures entry.Some? ==> 0 < read && EndsAt(inputs, read - 1)
    ensures entry.Some? ==> entry.value == JournalEntry(StoredLines(inputs[..read]))
    ensures entry.None? ==> read == |inputs| && (read == 0 || !EndsAt(inputs, read - 1))
  {
    var journalLines, stopped;
    journalLines, read, stopped := CollectJournalLines(inputs);
    if stopped {
      var journalEntry := Trim(Join(journalLines, '\n'));
      if journalEntry == [] {
        journalEntry := NoEntryText;
      }
      entry := Some(journalEntry);
    } else {
      entry := None;
    }
  }

  // ---------------------------------------------------------------------
  // Stage 2: the assessment
  // ---------------------------------------------------------------------

  /** The score read from the classifier's reply (`None` when the call
      failed): the reply's number when the stripped reply is exactly one of
      "0", "1", "2", "3", otherwise 0. */
  function ScoreFromReply(reply: Option<string>): (score: int)
    ensures 0 <= score <= 3
    ensures score > 0 ==> reply.Some? && Trim(reply.value) == [DigitChar(score)]
    ensures forall d :: 0 <= d <= 3 && reply.Some? && Trim(reply.value) == [DigitChar(d)] ==> score == d
  {
    match reply
    case None => 0
    case Some(text) =>
      var scoreText := Trim(text);
      if |scoreText| == 1 && '0' <= scoreText[0] <= '3' then scoreText[0] as int - '0' as int else 0
  }

  /** Any reply other than a single digit 0..3, or a failed call, scores 0. */
  lemma UnexpectedReplyScoresZero(reply: Option<string>)
    requires reply.None? || !(|Trim(reply.value)| == 1 && '0' <= Trim(reply.value)[0] <= '3')
    ensures ScoreFromReply(reply) == 0
  {
  }

  /** What a blank answer is replaced by before scoring. */
  const NoResponseText: string := "no response"

  /** The answer sent for scoring: the stripped input, or "no response" when
      that is empty. */
  function NormalizeAnswer(raw: string): (answer: string)
    ensures answer != []
    ensures !IsBlank(raw) ==> answer == Trim(raw)
    ensures IsBlank(raw) ==> answer == NoResponseText
  {
    var userAnswer := Trim(raw);
    if userAnswer == [] then NoResponseText else userAnswer
  }

  /** Normalising an answer a second time changes nothing. */
  lemma {:induction false} NormalizeIdempotent(raw: string)
    ensures NormalizeAnswer(NormalizeAnswer(raw)) == NormalizeAnswer(raw)
  {
    if IsBlank(raw) {
      assert !IsSpace(NoResponseText[0]);
    } else {
      TrimIdempotent(raw);
    }
  }

  /** The score of one raw answer under the classifier. */
  function ScoreFor(classify: string -> Option<string>, raw: string): (score: int)
    ensures 0 <= score <= 3
  {
    ScoreFromReply(classify(NormalizeAnswer(raw)))
  }

  const TopicNervous: string := "feeling nervous, anxious, or on edge"
  const TopicControl: string := "being able to stop or control your worrying"
  const TopicTooMuch: string := "worrying too much about different things"
  const TopicRelaxing: string := "trouble relaxing"
  const TopicRestless: string := "feeling so restless that it's hard to sit still"
  const TopicIrritable: string := "becoming easily annoyed or irritable"
  const TopicAfraid: string := "feeling afraid, as if something awful might happen"

  /** The search topic of each item, in GAD-7 item order. */
  const Topics: seq<string> :=
    [TopicNervous, TopicControl, TopicTooMuch, TopicRelaxing, TopicRestless, TopicIrritable, TopicAfraid]

  // Quotations

  /** The text between the first and the last double quote of a line, when
      the first quote exists and the last one comes at least two positions
      later (an empty quotation is not taken). */
  function ExtractQuoted(line: string): (quoted: Option<string>)
    ensures quoted.Some? ==> quoted.value != []
  {
    var start := IndexOf(line, '"') + 1;
    var end := RFind(line, '"');
    if start > 0 && end > start then Some(line[start..end]) else None
  }

  /** A line made of a quote-free prefix, a quoted non-empty text and a
      quote-free suffix gives back that text. */
  lemma QuotedRoundTrip(prefix: string, text: string, suffix: string)
    requires '"' !in prefix && '"' !in suffix && text != []
    ensures ExtractQuoted(prefix + ['"'] + text + ['"'] + suffix) == Some(text)
  {
    var line := prefix + ['"'] + text + ['"'] + suffix;
    var first := |prefix|;
    var last := |prefix| + 1 + |text|;
    assert IndexOf(line, '"') == first by {
      assert line == prefix + (['"'] + text + ['"'] + suffix);
      FindAfterQuoteFreePrefix(prefix, ['"'] + text + ['"'] + suffix);
    }
    assert RFind(line, '"') == last by {
      RFindBeforeQuoteFreeSuffix(prefix + ['"'] + text + ['"'], suffix);
    }
    assert line[first + 1..last] == text by {
      MiddleSlice(prefix, text, suffix);
    }
    QuotedBetween(line, first, last);
  }

  lemma MiddleSlice(prefix: string, text: string, suffix: string)
    ensures var line := prefix + ['"'] + text + ['"'] + suffix;
            line[|prefix| + 1..|prefix| + 1 + |text|] == text
  {
  }

  lemma QuotedBetween(line: string, first: nat, last: nat)
    requires IndexOf(line, '"') == first && RFind(line, '"') == last && first + 1 < last
    ensures ExtractQuoted(line) == Some(line[first + 1..last])
  {
  }

  lemma FindAfterQuoteFreePrefix(prefix: string, rest: string)
    requires '"' !in prefix && |rest| > 0 && rest[0] == '"'
    ensures IndexOf(prefix + rest, '"') == |prefix|
  {
    var line := prefix + rest;
    assert line[|prefix|] == '"';
    assert forall j :: 0 <= j < |prefix| ==> line[j] == prefix[j];
  }

  lemma RFindBeforeQuoteFreeSuffix(init: string, suffix: string)
    requires '"' !in suffix && |init| > 0 && init[|init| - 1] == '"'
    ensures RFind(init + suffix, '"') == |init| - 1
  {
    var line := init + suffix;
    assert line[|init| - 1] == '"';
    assert forall j :: |init| <= j < |line| ==> line[j] == suffix[j - |init|];
  }

  /** Conversely, an extracted text sits between a quote-free prefix and a
      quote-free suffix, each closed by a quote. */
  lemma QuotedDecomposes(line: string)
    requires ExtractQuoted(line).Some?
    ensures var first := IndexOf(line, '"');
            var text := ExtractQuoted(line).value;
            && line == line[..first] + ['"'] + text + ['"'] + line[first + 2 + |text|..]
            && '"' !in line[..first]
            && '"' !in line[first + 2 + |text|..]
  {
    var first := IndexOf(line, '"');
    var last := RFind(line, '"');
    assert last == first + 1 + |ExtractQuoted(line).value|;
    assert line == line[..first] + [line[first]] + line[first + 1..last] + [line[last]] + line[last + 1..];
    assert forall k :: last < k < |line| ==> line[k] != '"';
    assert '"' !in line[last + 1..];
  }

  // Question text

  /** The first part of the question asked when the store gives none. */
  const FallbackQuestionStart: string := "Over the last couple of weeks, how often have you been "

  function FallbackQuestion(topic: string): string {
    FallbackQuestionStart + topic + "?"
  }

  const QuestionMarker: string := "Question:"

  /** A document line that states the question on `topic`: it holds
      "Question:" and the topic's first word. */
  predicate IsQuestionLine(line: string, topic: string) {
    Contains(line, QuestionMarker) && Contains(line, FirstWord(topic))
  }

  /** Index of the first question line on `topic`, or -1. */
  function QuestionLineIndex(lines: seq<string>, topic: string): (k: int)
    ensures -1 <= k < |lines|
    ensures k >= 0 ==> IsQuestionLine(lines[k], topic)
    ensures forall j :: 0 <= j < |lines| && (k == -1 || j < k) ==> !IsQuestionLine(lines[j], topic)
  {
    if lines == [] then -1
    else if IsQuestionLine(lines[0], topic) then 0
    else
      var k := QuestionLineIndex(lines[1..], topic);
      if k == -1 then -1 else k + 1
  }

  /** The question shown for `topic`: the quotation on the first question
      line of the document, or the generic question when there is no
      document, no question line, or no quotation on that first line. */
  function QuestionShown(topic: string, doc: Option<string>): string {
    match doc
    case None => FallbackQuestion(topic)
    case Some(content) =>
      var lines := Split(content, '\n');
      var k := QuestionLineIndex(lines, topic);
      if k == -1 then FallbackQuestion(topic)
      else
        match ExtractQuoted(lines[k])
        case Some(text) => text
        case None => FallbackQuestion(topic)
  }

  /** The scan stops at the first question line even when it holds no
      quotation: a later quoted question line is not used. */
  lemma FirstQuestionLineDecides(topic: string, content: string, k: nat)
    requires k < |Split(content, '\n')|
    requires IsQuestionLine(Split(content, '\n')[k], topic)
    requires forall j :: 0 <= j < k ==> !IsQuestionLine(Split(content, '\n')[j], topic)
    ensures ExtractQuoted(Split(content, '\n')[k]).None? ==> QuestionShown(topic, Some(content)) == FallbackQuestion(topic)
    ensures ExtractQuoted(Split(content, '\n')[k]).Some? ==>
              QuestionShown(topic, Some(content)) == ExtractQuoted(Split(content, '\n')[k]).value
  {
    var lines := Split(content, '\n');
    var i := QuestionLineIndex(lines, topic);
    assert i != -1 ==> i >= k;
    assert i == k;
  }

  /** The question scan of one item, as a loop over the document's lines. */
  method ChooseQuestionText(topic: string, doc: Option<string>) returns (questionText: string)
    ensures questionText == QuestionShown(topic, doc)
  {
    questionText := FallbackQuestion(topic);
    if doc.Some? {
      var lines := Split(doc.value, '\n');
      var keyword := FirstWord(topic);
      var i := 0;
      while i < |lines|
        invariant 0 <= i <= |lines|
        invariant forall j :: 0 <= j < i ==> !IsQuestionLine(lines[j], topic)
        invariant questionText == FallbackQuestion(topic)
      {
        var line := lines[i];
        if Contains(line, QuestionMarker) && Contains(line, keyword) {
          var quoted := ExtractQuoted(line);
          if quoted.Some? {
            questionText := quoted.value;
          }
          assert QuestionLineIndex(lines, topic) == i;
          return;
        }
        i := i + 1;
      }
      assert QuestionLineIndex(lines, topic) == -1;
    }
  }

  // Empathy text

  /** The empathy line printed when the store gives none. */
  const FallbackEmpathy: string := "I can hear that this has been challenging for you. Thank you for sharing."

  const EmpathyMarker: string := "Empathetic Response"
  const HighScoreMarker: string := "scores 2 or 3"

  /** A document line that offers an empathetic response to a high score. */
  predicate IsEmpathyLine(line: string) {
    Contains(line, EmpathyMarker) && Contains(line, HighScoreMarker)
  }

  /** A line the empathy scan takes: an empathy line holding a quotation. */
  predicate TakesEmpathy(line: string) {
    IsEmpathyLine(line) && ExtractQuoted(line).Some?
  }

  /** Index of the first line the empathy scan takes, or -1. */
  function EmpathyLineIndex(lines: seq<string>): (k: int)
    ensures -1 <= k < |lines|
    ensures k >= 0 ==> TakesEmpathy(lines[k])
    ensures forall j :: 0 <= j < |lines| && (k == -1 || j < k) ==> !TakesEmpathy(lines[j])
  {
    if lines == [] then -1
    else if TakesEmpathy(lines[0]) then 0
    else
      var k := EmpathyLineIndex(lines[1..]);
      if k == -1 then -1 else k + 1
  }

  /** The empathy text shown after a score of 2 or 3: the quotation of the
      first empathy line that holds one (empathy lines without a quotation
      are passed over), or the generic line. */
  function EmpathyShown(doc: Option<string>): string {
    match doc
    case None => FallbackEmpathy
    case Some(content) =>
      var lines := Split(content, '\n');
      var k := EmpathyLineIndex(lines);
      if k == -1 then FallbackEmpathy else ExtractQuoted(lines[k]).value
  }

  /** The empathy scan, as a loop with the generic line in its `else`. */
  method ChooseEmpathyText(doc: Option<string>) returns (empathyText: string)
    ensures empathyText == EmpathyShown(doc)
  {
    if doc.None? {
      return FallbackEmpathy;
    }
    var lines := Split(doc.value, '\n');
    var i := 0;
    while i < |lines|
      invariant 0 <= i <= |lines|
      invariant forall j :: 0 <= j < i ==> !TakesEmpathy(lines[j])
    {
      var line := lines[i];
      if Contains(line, EmpathyMarker) && Contains(line, HighScoreMarker) {
        var quoted := ExtractQuoted(line);
        if quoted.Some? {
          assert EmpathyLineIndex(lines) == i;
          return quoted.value;
        }
      }
      i := i + 1;
    }
    assert EmpathyLineIndex(lines) == -1;
    empathyText := FallbackEmpathy;
  }

  /** An empathy line without a quotation does not stop the scan: a later
      quoted one is still used. */
  lemma EmpathySkipsUnquotedLines(content: string, k: nat)
    requires k < |Split(content, '\n')|
    requires TakesEmpathy(Split(content, '\n')[k])
    requires forall j :: 0 <= j < k ==> !TakesEmpathy(Split(content, '\n')[j])
    ensures EmpathyShown(Some(content)) == ExtractQuoted(Split(content, '\n')[k]).value
  {
    var i := EmpathyLineIndex(Split(content, '\n'));
    assert i != -1 ==> i >= k;
    assert i == k;
  }

  /** One pass of the assessment loop: the question shown for item `i`, the
      score of its answer and the empathy line, if the score calls for one. */
  method AssessItem(i: nat, answer: string, classify: string -> Option<string>,
                    questionDoc: Option<string>, empathyDoc: Option<string>)
    returns (questionText: string, score: int, empathyText: Option<string>)
    requires i < ItemCount
    ensures questionText == QuestionShown(Topics[i], questionDoc)
    ensures score == ScoreFor(classify, answer)
    ensures empathyText == EmpathyAfter(score, empathyDoc)
  {
    questionText := ChooseQuestionText(Topics[i], questionDoc);
    var userAnswer := NormalizeAnswer(answer);
    score := ScoreFromReply(classify(userAnswer));
    if score >= 2 {
      var text := ChooseEmpathyText(empathyDoc);
      empathyText := Some(text);
    } else {
      empathyText := None;
    }
  }

  /** The empathy line after a score: the store's text after a 2 or 3,
      nothing otherwise. */
  function EmpathyAfter(score: int, doc: Option<string>): Option<string> {
    if score >= 2 then Some(EmpathyShown(doc)) else None
  }

  /** The scores of the answers, in item order. */
  function ScoresOf(classify: string -> Option<string>, answers: seq<string>): (scores: seq<int>)
    ensures |scores| == |answers|
  {
    MapWith(classify, answers, ScoreFor)
  }

  /** The questions shown for the first `|questionDocs|` items from their
      documents, in item order. */
  function QuestionsOf(questionDocs: seq<Option<string>>): (questions: seq<string>)
    requires |questionDocs| <= ItemCount
    ensures |questions| == |questionDocs|
  {
    Map2(Topics[..|questionDocs|], questionDocs, QuestionShown)
  }

  /** The empathy lines after the given scores, in item order. */
  function EmpathyOf(scores: seq<int>, empathyDocs: seq<Option<string>>): (empathy: seq<Option<string>>)
    requires |scores| == |empathyDocs|
    ensures |empathy| == |scores|
  {
    Map2(scores, empathyDocs, EmpathyAfter)
  }

  /** Score `j` is the score of answer `j`, and every score lies in 0..3. */
  lemma ScoresOfAt(classify: string -> Option<string>, answers: seq<string>, j: int)
    requires 0 <= j < |answers|
    ensures ScoresOf(classify, answers)[j] == ScoreFor(classify, answers[j])
    ensures 0 <= ScoresOf(classify, answers)[j] <= 3
  {
    MapWithAt(classify, answers, ScoreFor, j);
  }

  /** Every score of the answers lies in 0..3. */
  lemma ScoresOfValid(classify: string -> Option<string>, answers: seq<string>)
    ensures ValidScores(ScoresOf(classify, answers))
  {
    forall j | 0 <= j < |answers|
      ensures 0 <= ScoresOf(classify, answers)[j] <= 3
    {
      ScoresOfAt(classify, answers, j);
    }
  }

  /** Question `j` is the one shown for item `j`'s topic from its document. */
  lemma QuestionsOfAt(questionDocs: seq<Option<string>>, j: int)
    requires |questionDocs| <= ItemCount && 0 <= j < |questionDocs|
    ensures QuestionsOf(questionDocs)[j] == QuestionShown(Topics[j], questionDocs[j])
  {
    Map2At(Topics[..|questionDocs|], questionDocs, QuestionShown, j);
  }

  /** Empathy entry `j` is present exactly when score `j` is 2 or more, and
      is then the text taken from item `j`'s document. */
  lemma EmpathyOfAt(scores: seq<int>, empathyDocs: seq<Option<string>>, j: int)
    requires |scores| == |empathyDocs| && 0 <= j < |scores|
    ensures EmpathyOf(scores, empathyDocs)[j].Some? <==> scores[j] >= 2
    ensures scores[j] >= 2 ==> EmpathyOf(scores, empathyDocs)[j].value == EmpathyShown(empathyDocs[j])
  {
    Map2At(scores, empathyDocs, EmpathyAfter, j);
  }

  /** The whole assessment over seven answers: the question shown for each
      item, the score of each answer, the empathy line after each score of 2
      or 3, the total, its band and whether professional support is advised.
      Each item's answer, classifier and store documents are given in item
      order. */
  method Stage2Assessment(answers: seq<string>, classify: string -> Option<string>,
                          questionDocs: seq<Option<string>>, empathyDocs: seq<Option<string>>)
    returns (scores: seq<int>, totalScore: int, questions: seq<string>, empathy: seq<Option<string>>,
             severity: Severity, adviceShown: bool)
    requires |answers| == ItemCount && |questionDocs| == ItemCount && |empathyDocs| == ItemCount
    ensures scores == ScoresOf(classify, answers) && ValidScores(scores)
    ensures questions == QuestionsOf(questionDocs)
    ensures empathy == EmpathyOf(scores, empathyDocs)
    ensures totalScore == Sum(scores) && 0 <= totalScore <= 21
    ensures severity == SeverityOf(totalScore)
    ensures adviceShown <==> totalScore >= 10
  {
    scores := [];
    totalScore := 0;
    questions := [];
    empathy := [];
    for i := 0 to ItemCount
      invariant scores == ScoresOf(classify, answers[..i])
      invariant questions == QuestionsOf(questionDocs[..i])
      invariant empathy == EmpathyOf(scores, empathyDocs[..i])
      invariant totalScore == Sum(scores)
    {
      var questionText, score, empathyText := AssessItem(i, answers[i], classify, questionDocs[i], empathyDocs[i]);
      assert ScoresOf(classify, answers[..i + 1]) == scores + [score] by {
        PrefixSnoc(answers, i);
        MapWithSnoc(classify, answers[..i], answers[i], ScoreFor);
      }
      assert QuestionsOf(questionDocs[..i + 1]) == questions + [questionText] by {
        PrefixSnoc(Topics, i);
        PrefixSnoc(questionDocs, i);
        Map2Snoc(Topics[..i], questionDocs[..i], Topics[i], questionDocs[i], QuestionShown);
      }
      assert EmpathyOf(scores + [score], empathyDocs[..i + 1]) == empathy + [empathyText] by {
        PrefixSnoc(empathyDocs, i);
        Map2Snoc(scores, empathyDocs[..i], score, empathyDocs[i], EmpathyAfter);
      }
      questions := questions + [questionText];
      SumAppend(scores, score);
      scores := scores + [score];
      totalScore := totalScore + score;
      empathy := empathy + [empathyText];
    }
    assert answers[..ItemCount] == answers && questionDocs[..ItemCount] == questionDocs
           && empathyDocs[..ItemCount] == empathyDocs;
    ScoresOfValid(classify, answers);
    severity, adviceShown := InterpretTotal(totalScore);
  }

  /** The report after the seventh answer: the band of the total and
      whether professional support is advised. */
  method InterpretTotal(totalScore: int) returns (severity: Severity, adviceShown: bool)
    ensures severity == SeverityOf(totalScore)
    ensures adviceShown <==> RecommendsProfessionalSupport(totalScore)
  {
    if totalScore <= 4 {
      severity := Minimal;
    } else if totalScore <= 9 {
      severity := Mild;
    } else if totalScore <= 14 {
      severity := Moderate;
    } else {
      severity := Severe;
    }
    adviceShown := totalScore >= 10;
  }

  // ---------------------------------------------------------------------
  // Stage 3: the highest-scoring symptom
  // ---------------------------------------------------------------------

  /** The symptom name of item `k`, as stage 3 reports it. */
  function SymptomName(k: nat): string
    requires k < ItemCount
  {
    match k
    case 0 => "feeling nervous, anxious, or on edge"
    case 1 => "uncontrollable worrying"
    case 2 => "worrying about different things"
    case 3 => "trouble relaxing"
    case 4 => "restlessness"
    case 5 => "being annoyed or irritable"
    case _ => "feeling afraid"
  }

  /** The highest score and the symptom of the first item that reaches it. */
  function HighestScoringSymptom(scores: seq<int>): (result: (string, int))
    requires 0 < |scores| <= ItemCount
    ensures result.1 in scores
    ensures forall j :: 0 <= j < |scores| ==> scores[j] <= result.1
    ensures exists k :: 0 <= k < |scores| && scores[k] == result.1 && result.0 == SymptomName(k)
                        && forall j :: 0 <= j < k ==> scores[j] < result.1
  {
    var maxScore := Max(scores);
    var highestSymptomIndex := IndexOf(scores, maxScore);
    (SymptomName(highestSymptomIndex), maxScore)
  }

  /** Both programs pick the same item: the terminal symptom belongs to the
      item the browser chatbot summarises. */
  lemma SymptomMatchesHighestIndex(scores: seq<int>)
    requires 0 < |scores| <= ItemCount
    ensures HighestScoringSymptom(scores).0 == SymptomName(HighestIndex(scores))
  {
  }
}
