# Mental-health check-in, invoice wizard and notes service — a Dafny model

This project models the logic of a small collection of programs.

- **Terminal check-in (`app.py`).** A journaling stage reads lines until two consecutive blank ones. A GAD-7 stage then asks seven questions. Each question is looked up in a document store. Each answer is classified into a score from 0 to 3 through a language-model reply. An empathy line follows every answer that scores 2 or 3. The total is reported with its severity band and, from 10 up, advice to seek professional support. A helper names the highest-scoring symptom.
- **Browser check-in (`web_app.js`).** A `MentalHealthChatbot` object walks the same three stages: journaling, assessment and support. It scores answers with a keyword classifier (negation phrases, then high-frequency phrases, then moderate ones) and appends every displayed line to the chat. Its closing summary is about the first highest-scoring item. The send button is disabled while the box is blank or a reply is pending.
- **Invoice questionnaire (`questionnaire.js`).** This wizard has eight questions, with Back and Next buttons and a closing reminder. From the stored answers it builds an invoice number (up to three upper-case initials, a dash and the date as `YYYYMMDD`) and a customer id (the first ten letters and digits of the business name in upper case, or `-`).
- **Instruction viewer (`script.js`).** Seven steps are shown one at a time. Previous, Next and the arrow keys move between them. After the last step comes a completion screen with Start Over and Review Steps.
- **Login form (`login.js`).** The trimmed email must be non-empty and contain an `@`. The untrimmed password must be at least eight UTF-16 code units long, as JavaScript counts `length`.
- **Patient notes service (`mcp_server/server.py`).** A search reads the notes file in text mode, so every `\r\n` or lone `\r` arrives as `\n`. It reports every line that contains the query, with its 1-based line number, optionally case-insensitive. Adding a note appends a fixed five-line record. Two HTTP endpoints put guards around these operations.

Data with an identity and in-place updates are classes: the chatbot, the wizard, the viewer and the notes store. Their methods state the whole new state, as a function of the old state. Everything else is datatypes and functions. Each loop of the sources is a method proved against a specification function.

The modules are:

| module | file | models |
|---|---|---|
| `Wrappers` | `wrappers.dfy` | the optional value |
| `Text` | `text.dfy` | the string operations used by the programs (strip/trim, lower/upper, substring search, split/join, find/rfind, slicing) |
| `Sequences` | `sequences.dfy` | element-wise maps built up one entry at a time |
| `TextMode` | `text_mode.dfy` | Python's text-mode read, which turns each line end into `\n` |
| `Gad7` | `gad7.dfy` | what both check-ins share: the score total, the bands, the advice threshold, the first highest item |
| `TerminalChatbot` | `terminal_chatbot.dfy` | `app.py` stages 1 and 2 and the symptom helper |
| `WebChatbot` | `web_chatbot.dfy` | `web_app.js` |
| `InvoiceWizard` | `invoice_wizard.dfy` | `questionnaire.js` |
| `InstructionViewer` | `instruction_viewer.dfy` | `script.js` |
| `LoginForm` | `login_form.dfy` | `login.js` |
| `PatientNotes` | `patient_notes.dfy` | `mcp_server/server.py` |

## Model

| member | source | states |
|---|---|---|
| Gad7.Sum | web_app.js:318 | the total of valid item scores lies between 0 and 3 per item |
| Gad7.SumAppend | app.py:279-280 | recording one more score adds exactly that score to the running total |
| Gad7.SeverityOf | app.py:324-335 | Minimal iff total <= 4, Mild iff 5..9, Moderate iff 10..14, Severe iff >= 15 (each band in both directions) |
| Gad7.SeverityMonotone | web_app.js:325-337 | a higher total never falls into a lower band |
| Gad7.AdviceIffModerateOrSevere | app.py:340-342 | the professional-support advice (total >= 10) is given exactly for the Moderate and Severe bands |
| Gad7.Max | app.py:362 | the maximum is one of the scores and no score exceeds it |
| Sequences.IndexOf | app.py:363 | -1 iff the value is absent, otherwise the first position holding it |
| Gad7.HighestIndex | web_app.js:376-377 | the index of a maximal score, and no earlier score reaches the maximum (first occurrence) |
| Gad7.FirstOccurrenceWins | web_app.js:376-377 | with the maximum 3 at positions 1 and 4, position 1 is chosen |
| TerminalChatbot.StoredLines | app.py:142-155 | the kept lines are the non-blank typed inputs, never more than were read |
| TerminalChatbot.StoredLinesStep | app.py:146-152 | reading one more input appends it to the kept lines exactly when it is a non-blank typed line |
| TerminalChatbot.EntryFallbackIffNothingStored | app.py:158-168 | the placeholder entry is used exactly when no line was kept; otherwise the entry is the stripped join and is non-empty |
| TerminalChatbot.CollectJournalLines | app.py:142-155 | the lines kept are StoredLines of the inputs read; reading stops at the first interrupt or second consecutive blank line and at no earlier input |
| TerminalChatbot.Stage1Journaling | app.py:117-171 | once reading stops the entry is JournalEntry of the kept lines; if the inputs run out first there is no entry |
| TerminalChatbot.ScoreFromReply | app.py:196-202 | the score is 0..3; a positive score means the stripped reply is that digit; a stripped reply "0".."3" gives exactly that score |
| TerminalChatbot.UnexpectedReplyScoresZero | app.py:197-202 | a failed call or a reply that is not one digit 0..3 scores 0 |
| TerminalChatbot.NormalizeAnswer | app.py:271-274 | the answer is never empty: the stripped input, or "no response" for a blank input |
| TerminalChatbot.NormalizeIdempotent | app.py:271-274 | normalising an already normalised answer changes nothing |
| TerminalChatbot.ScoreFor | app.py:271-278 | every answer scores 0..3 whatever the classifier replies |
| TerminalChatbot.ExtractQuoted | app.py:252-255 | a quotation taken from a line is never empty |
| TerminalChatbot.QuotedRoundTrip | app.py:252-255 | quoting a non-empty text between quote-free prefix and suffix and extracting gives the text back |
| TerminalChatbot.QuotedBetween | app.py:252-255 | with the first quote at `first` and the last at `last` two or more apart, the extraction is the text strictly between them |
| TerminalChatbot.QuotedDecomposes | app.py:252-255 | every extracted quotation sits between the line's first and last quote, and the line is prefix + quote + text + quote + suffix |
| TerminalChatbot.QuestionLineIndex | app.py:249-250 | the index is the first line that mentions "Question:" and the topic's first word, or -1 when none does |
| TerminalChatbot.FirstQuestionLineDecides | app.py:249-256 | only the first question line counts: its quotation, if it has one, is the question, and otherwise the fallback question is used (no later line is tried) |
| TerminalChatbot.ChooseQuestionText | app.py:240-268 | the loop over the document's lines shows QuestionShown of the topic and document |
| TerminalChatbot.EmpathyLineIndex | app.py:295-303 | the index is the first line that mentions both markers and carries a quotation, or -1 when none does |
| TerminalChatbot.EmpathySkipsUnquotedLines | app.py:295-306 | lines without a usable quotation are skipped; the first one with a quotation gives the empathy text |
| TerminalChatbot.ChooseEmpathyText | app.py:290-312 | the loop over the document's lines shows EmpathyShown of the document |
| TerminalChatbot.AssessItem | app.py:229-312 | one pass: the question for item i's topic, the answer's score, and an empathy line exactly when the score is 2 or more |
| TerminalChatbot.ScoresOf | app.py:226-280 | one score per answer, in answer order |
| TerminalChatbot.QuestionsOf | app.py:216-268 | one question per item, in item order |
| TerminalChatbot.EmpathyOf | app.py:283-312 | one empathy entry per score, in item order |
| TerminalChatbot.ScoresOfAt | app.py:278-280 | score j is the score of answer j and lies in 0..3 |
| TerminalChatbot.ScoresOfValid | app.py:278-280 | every score of the answers lies in 0..3 |
| TerminalChatbot.QuestionsOfAt | app.py:229-268 | question j is the one shown for item j's topic from item j's document |
| TerminalChatbot.EmpathyOfAt | app.py:283-312 | empathy entry j is present iff score j >= 2, and is then the text taken from item j's document |
| TerminalChatbot.Stage2Assessment | app.py:204-347 | the loop's scores, questions and empathy lines are ScoresOf, QuestionsOf and EmpathyOf of the inputs; the scores are valid; the total is their sum, in 0..21; the band is SeverityOf(total); advice is shown iff total >= 10 |
| TerminalChatbot.InterpretTotal | app.py:324-342 | the band is SeverityOf(total) and advice is shown iff the total is 10 or more |
| TerminalChatbot.HighestScoringSymptom | app.py:349-366 | the reported score is the maximum, and the symptom is that of an item holding it |
| TerminalChatbot.SymptomMatchesHighestIndex | app.py:362-364 | the symptom is the one at the first position of the maximum |
| WebChatbot.SimulateGad7Scoring | web_app.js:264-287 | 0 iff the lower-cased answer holds a negation phrase; 3 iff no negation but a high phrase; 2 iff only a moderate phrase; 1 iff none (each both ways) |
| WebChatbot.ScoringIgnoresCase | web_app.js:265 | an answer and its lower-cased form always score the same |
| WebChatbot.NegationAnywhere | web_app.js:268-271 | examples: "Never, it happens every day" scores 0, and so does "Piano every day", through the "no " inside "piano" |
| WebChatbot.HighBeatsModerate | web_app.js:274-283 | example: "Always, a lot" scores 3, since the high phrase is checked before the moderate one (the general rule is SimulateGad7Scoring's contract) |
| WebChatbot.ModerateAlone | web_app.js:280-283 | example: "A lot" scores 2 |
| WebChatbot.DefaultScore | web_app.js:285-286 | example: "Just slightly" names no phrase and scores 1 |
| WebChatbot.FocusItem | web_app.js:376-377 | the summary's item has a maximal score and no earlier item reaches it |
| WebChatbot.ResponseNamesFocusItem | web_app.js:375-407 | the summary names the symptom of the first highest-scoring item and offers the strategy for that same item |
| WebChatbot.AdviceShownIffTotalAtLeastTen | web_app.js:342-345 | the report contains the professional-support line exactly when the total is 10 or more |
| WebChatbot.SendDisabled | web_app.js:110-113 | the send button is disabled iff a reply is pending or the trimmed box is empty |
| WebChatbot.MentalHealthChatbot.constructor | web_app.js:3-23 | a new session is in stage 1 at question 0 with no scores and no entry, and shows the welcome lines then the journaling intro |
| WebChatbot.MentalHealthChatbot.AddMessage | web_app.js:149-170 | exactly one line is appended to the chat and nothing else changes |
| WebChatbot.MentalHealthChatbot.StartWelcomeSequence | web_app.js:64-83 | appends the five welcome lines and the journaling intro |
| WebChatbot.MentalHealthChatbot.StartJournalingStage | web_app.js:85-95 | appends the journaling intro |
| WebChatbot.MentalHealthChatbot.HandleSendMessage | web_app.js:183-199 | a blank input changes nothing; otherwise the trimmed input is echoed and handled by the current stage; the stage never decreases and rises by at most one |
| WebChatbot.MentalHealthChatbot.HandleJournalStage | web_app.js:201-214 | stores the entry, acknowledges it and opens the assessment at question 1 |
| WebChatbot.MentalHealthChatbot.StartAssessmentStage | web_app.js:289-305 | moves to stage 2 and asks the current (first) question after the intro |
| WebChatbot.MentalHealthChatbot.AskNextQuestion | web_app.js:307-315 | appends the question's number line and its text |
| WebChatbot.MentalHealthChatbot.HandleAssessmentStage | web_app.js:216-249 | records the answer's score, advances the index, shows the empathy line for scores of 2 or 3, then the next question or, after the seventh, the report and stage 3 |
| WebChatbot.MentalHealthChatbot.CompleteAssessment | web_app.js:317-349 | appends the report (band of the total, total, advice from 10) and opens the support stage |
| WebChatbot.MentalHealthChatbot.StartSupportStage | web_app.js:351-373 | moves to stage 3 and shows the summary about the first highest-scoring item, then the closing words |
| WebChatbot.MentalHealthChatbot.GeneratePersonalizedResponse | web_app.js:375-407 | the summary line is about FocusItem of the recorded scores |
| WebChatbot.MentalHealthChatbot.ShowFinalSupport | web_app.js:409-434 | appends the heading, the five support lines in order and the closing line |
| WebChatbot.MentalHealthChatbot.HandleSupportStage | web_app.js:251-262 | appends the two fixed replies and stays in stage 3 |
| InvoiceWizard.Position | questionnaire.js:9-18 | every field has a position among the eight questions, and the question there is that field |
| InvoiceWizard.FieldAtInjective | questionnaire.js:9-18 | no field is asked twice |
| InvoiceWizard.WordPrefix | questionnaire.js:107-108 | the first word is the longest prefix without whitespace |
| InvoiceWizard.SplitWs | questionnaire.js:108 | splitting at whitespace runs always gives at least one piece |
| InvoiceWizard.InitialsAreWordStarts | questionnaire.js:107-110 | joining the first character of every piece gives exactly the first characters of the words |
| InvoiceWizard.Initials | questionnaire.js:107-111 | at most three characters |
| InvoiceWizard.InitialsFromWordStarts | questionnaire.js:107-111 | the initials are the first three word starts, upper-cased |
| InvoiceWizard.RemoveDashes | questionnaire.js:113 | the result has no dash and is no longer than the input |
| InvoiceWizard.RemoveDashesKeepsDigits | questionnaire.js:113 | a string of digits passes unchanged |
| InvoiceWizard.RemoveDashesAppend | questionnaire.js:113 | removing dashes distributes over concatenation |
| InvoiceWizard.DatePartOfIsoTimestamp | questionnaire.js:113 | for an ISO timestamp YYYY-MM-DD... the date part is YYYYMMDD |
| InvoiceWizard.InvoiceNumberParts | questionnaire.js:114 | the number splits at its first dash back into the initials and the date part |
| InvoiceWizard.KeepAlnum | questionnaire.js:130 | only letters and digits remain |
| InvoiceWizard.KeepAlnumEmptyIff | questionnaire.js:130 | nothing remains exactly when the name holds no letter or digit |
| InvoiceWizard.KeepAlnumOfAlnum | questionnaire.js:130 | a name of letters and digits passes unchanged |
| InvoiceWizard.CustomerId | questionnaire.js:130 | the id has 1 to 10 characters |
| InvoiceWizard.KeepAlnumAppend | questionnaire.js:130 | keeping letters and digits distributes over concatenation |
| InvoiceWizard.CustomerIdShape | questionnaire.js:130 | the id is "-" exactly when the name has no letter or digit; otherwise its length is the smaller of 10 and the number of letters and digits, and character i is the name's i-th letter or digit upper-cased |
| InvoiceWizard.CustomerIdIgnoresTail | questionnaire.js:130 | whatever follows the tenth letter or digit of the name does not change the id |
| InvoiceWizard.CustomerIdIdempotent | questionnaire.js:130 | an id taken as a business name gives itself back |
| InvoiceWizard.Questionnaire.constructor | questionnaire.js:20-21 | the wizard starts on the first question with no answers and Back disabled |
| InvoiceWizard.Questionnaire.Render | questionnaire.js:50-62 | shows the current question's text, hint and box kind, and its stored answer or nothing; Back is disabled iff on the first question; the last question's button reads "Make My Invoice!" |
| InvoiceWizard.Questionnaire.TypeAnswer | questionnaire.js:25 | typing changes only the answer box |
| InvoiceWizard.Questionnaire.SaveCurrentAnswer | questionnaire.js:64-67 | stores the trimmed box value under the current question and changes nothing else |
| InvoiceWizard.Questionnaire.Back | questionnaire.js:70-76 | always stores the current answer, even when blank; unless on the first question, steps back and renders: the previous stored answer, Back disabled iff now on the first question, caption "Next"; on the first question the page stays as it was; keeps the invariant and the rendered-page rule |
| InvoiceWizard.Questionnaire.SaveAndAdvance | questionnaire.js:85-89 | before the last question: the trimmed answer is stored, the index advances, the next question is rendered with its stored answer or nothing, Back enabled and the caption for the new index; keeps the invariant |
| InvoiceWizard.Questionnaire.SaveAndFinish | questionnaire.js:85-92 | on the last question: the trimmed answer is stored and the reminder shows, with the index and the page left as they were; keeps the invariant |
| InvoiceWizard.Questionnaire.Next | questionnaire.js:78-98 | a blank box changes nothing; otherwise the trimmed answer is stored and the wizard advances and renders (the next stored answer or nothing, Back enabled, the finishing caption iff now on the last question), or on the last question shows the reminder with the page left as it was; keeps the invariant and the rendered-page rule |
| InvoiceWizard.Questionnaire.BuildInvoice | questionnaire.js:100-130 | the invoice number and customer id are InvoiceNumber and CustomerId of the stored business name |
| InvoiceWizard.SaveKeepsInvariant | questionnaire.js:64-67 | storing any trimmed value under the current question keeps the invariant |
| InvoiceWizard.StepBackKeepsInvariant | questionnaire.js:72-74 | stepping back keeps the invariant |
| InvoiceWizard.AnsweredThrough | questionnaire.js:80-85 | after a non-blank save every question up to the current one has a non-blank answer |
| InvoiceWizard.AdvanceKeepsInvariant | questionnaire.js:85-89 | saving a non-blank answer and advancing keeps the invariant |
| InvoiceWizard.FinishKeepsInvariant | questionnaire.js:85-92 | saving on the last question and showing the reminder keeps the invariant, with the business name stored |
| InvoiceWizard.AllAnsweredAtReminder | questionnaire.js:85-96 | when the reminder appears every one of the eight questions holds a non-blank answer |
| Text.NatToStringValue | web_app.js:340 | the decimal rendering of a number (as in "Total score: n out of 21") reads back as that number |
| InstructionViewer.InstructionAt | script.js:2-38 | entry k shows step number k + 1 |
| InstructionViewer.Viewer.constructor | script.js:49-57 | the page opens on step 1 with Previous disabled and the celebration hidden |
| InstructionViewer.Viewer.UpdateInstruction | script.js:60-82 | shows the current instruction; Previous is disabled iff on the first step; Next reads "Finish" iff on the last |
| InstructionViewer.Viewer.Prev | script.js:86-91 | except on the first step, where nothing changes, steps back and redraws: the previous instruction, Previous disabled iff now on the first step, caption "Next"; keeps the rule that the card shows the current step's instruction and button states |
| InstructionViewer.Viewer.Next | script.js:93-101 | advances and redraws (the next instruction, Previous enabled, "Finish" iff now on the last step), or on the last step shows the completion screen and leaves the step, instruction and buttons as they were; keeps the display rule |
| InstructionViewer.Viewer.ShowCompletionMessage | script.js:147-182 | hides the card and shows the celebration, and nothing else changes |
| InstructionViewer.Viewer.ResetInstructions | script.js:185-210 | back to step 1 with the card shown, the celebration hidden and every box unchecked |
| InstructionViewer.Viewer.ShowOriginalContent | script.js:213-234 | back to the last step with "Finish" and the checklist kept |
| InstructionViewer.Viewer.SetChecked | script.js:117-122 | only the one checklist box changes |
| InstructionViewer.Viewer.KeyDown | script.js:104-110 | the left arrow on an enabled Previous has exactly Prev's effect; the right arrow has exactly Next's effect; any other key, or the left arrow on the first step, changes nothing |
| InstructionViewer.WalkForward | script.js:93-96 | pressing Next n times from the first step lands on step n and shows instruction n + 1 |
| LoginForm.Utf16Length | login.js:28 | the password's length in UTF-16 code units, between its character count and twice that, and equal to it without characters beyond the Basic Multilingual Plane |
| LoginForm.Validate | login.js:17-36 | the email error iff the trimmed email is empty or has no '@'; the password error iff the email passes and the password is under 8 UTF-16 code units; accepted iff both pass |
| LoginForm.EmailRuleIsAtSign | login.js:18-25 | the email rule amounts to "contains '@'": trimming and the emptiness test never change its verdict |
| LoginForm.EmailRuleFirst | login.js:22-25 | an invalid email gives the email error whatever the password |
| LoginForm.PasswordBoundary | login.js:19-31 | 8 code units pass and 7 fail; the password is not trimmed, so eight blanks pass |
| LoginForm.AstralCharactersCountTwice | login.js:28-31 | example: four emoji pass as eight code units |
| LoginForm.LettersAndEmoji | login.js:28-31 | example: six letters and an emoji pass as eight code units; three letters and an emoji fail as five |
| LoginForm.EmailTrimmedFirst | login.js:18 | surrounding whitespace in the email box never changes the outcome |
| PatientNotes.MatchFlags | mcp_server/server.py:97-99 | one flag per line |
| PatientNotes.MatchFlagAt | mcp_server/server.py:98-99 | line k's flag is whether the folded line holds the folded query |
| PatientNotes.SetPositions | mcp_server/server.py:96-100 | at most one number per line, each a 1-based line number |
| PatientNotes.SetPositionsSnoc | mcp_server/server.py:97-100 | one more line adds its number exactly when it matches |
| PatientNotes.SetPositionsSound | mcp_server/server.py:99-100 | every reported number belongs to a matching line |
| PatientNotes.SetPositionsIncreasing | mcp_server/server.py:97-100 | the numbers are reported in strictly increasing order |
| PatientNotes.SetPositionsComplete | mcp_server/server.py:97-100 | every matching line's number is reported |
| PatientNotes.SetPositionsExact | mcp_server/server.py:97-100 | a line number is reported iff its line matches |
| PatientNotes.FormatMatches | mcp_server/server.py:100 | result j is "Line n: " followed by line n, for the j-th reported number n |
| PatientNotes.SearchResults | mcp_server/server.py:82-103 | never more results than lines |
| PatientNotes.FoldKeepsContains | mcp_server/server.py:87-92 | folding case keeps a substring a substring |
| PatientNotes.LineInContent | mcp_server/server.py:95 | every line from the split is a substring of the text |
| PatientNotes.LineMatchMeansTextMatch | mcp_server/server.py:94-99 | a matching line implies the whole-text check passes |
| PatientNotes.FirstReported | mcp_server/server.py:97-100 | if any number is reported, some line matches |
| PatientNotes.ReportedMeansTextMatch | mcp_server/server.py:94-101 | any reported line implies the whole-text check passes |
| PatientNotes.WholeTextCheckRedundant | mcp_server/server.py:94-103 | when the whole text lacks the query the scan also reports nothing, so the early `[]` agrees with the scan |
| PatientNotes.MatchedLineNumbersExact | mcp_server/server.py:95-100 | a line number is reported iff the folded line holds the folded query |
| PatientNotes.ReportedLineMatches | mcp_server/server.py:95-101 | result j is "Line n: " followed by line n, with n in range and line n matching |
| PatientNotes.ResultsInFileOrder | mcp_server/server.py:97-100 | results come in file order: earlier results have smaller line numbers |
| TextMode.ReadText | mcp_server/server.py:85 | the text-mode read of the notes file is never longer than the file |
| TextMode.NoReturnAfterRead | mcp_server/server.py:85 | the text read holds no carriage return |
| TextMode.ReadTextWithoutReturn | mcp_server/server.py:85 | a file without a carriage return reads back unchanged |
| TextMode.ReadTextAppend | mcp_server/server.py:85 | a file that does not end in a carriage return, followed by more text, reads as the two parts read apart |
| TextMode.ReadAppended | mcp_server/server.py:85 | text without a carriage return, appended to a file that does not end in one, reads back as itself after the file's text |
| TextMode.LoneReturnReadsAsBreak | mcp_server/server.py:85 | a lone carriage return between texts without one (for example inside a patient's name) reads as a line break |
| TextMode.CrLfReadsAsBreak | mcp_server/server.py:85 | a "\r\n" pair between texts without carriage returns reads as one line break |
| PatientNotes.SearchInNotes | mcp_server/server.py:82-103 | the loop's result is SearchResults of the file as read in text mode, the query and the case mode |
| PatientNotes.AppendedRecordLines | mcp_server/server.py:115-123 | after appending a record the text's lines are the old lines, then a blank line, the header, name, type, note and end lines, then an empty last line |
| PatientNotes.NameLineOfRecord | mcp_server/server.py:115-116 | after appending a record, the line two past the old line count is "Patient Name: " + name |
| PatientNotes.NameLineMatches | mcp_server/server.py:116 | a record's name line holds the name in either case mode |
| PatientNotes.NameLineReported | mcp_server/server.py:97-100 | a name line at index base + 2 is reported as line base + 3 by a search for the name |
| PatientNotes.LineIsReported | mcp_server/server.py:97-100 | any matching line is among the results with its 1-based number |
| PatientNotes.NoReturnInRecord | mcp_server/server.py:115-119 | a record whose fields hold no carriage return holds none |
| PatientNotes.RecordNameFound | mcp_server/server.py:97-116 | on text already read, a search for the name reports the appended record's name line as line (old line count + 3), in either case mode |
| PatientNotes.RecordFoundAfterRead | mcp_server/server.py:85-123 | a result found in the old text read plus the record is found in the text read after the record is appended |
| PatientNotes.AddedNoteIsFound | mcp_server/server.py:85-123 | after a record is appended to a file that does not end in a carriage return, a search for the name, in either case mode, reports the name line as line (old line count + 3), when no field holds '\n' or '\r' |
| PatientNotes.NotesStore.constructor | mcp_server/server.py:85 | the store holds the given file characters |
| PatientNotes.NotesStore.AddPatientNote | mcp_server/server.py:109-128 | a successful write appends exactly the record; a failed one leaves the text as it was and reports failure |
| PatientNotes.NotesStore.SearchNotesTool | mcp_server/server.py:194-211 | 400 with the message iff the query is missing or empty; otherwise the query, case mode (default false), the result count and SearchResults of the file as read in text mode |
| PatientNotes.NotesStore.AddNoteTool | mcp_server/server.py:214-234 | 400 with nothing written iff name or content is missing or empty; on a successful write the record (type defaulting to "general") is appended with the success message; a failed write gives 500 |

## Left out

- Web pages: DOM rendering, CSS effects, focus, character counters, status bars, progress bars and the sparkle animation are left out. Displayed text is modelled by line identity; emojis and HTML markup are not reproduced.
- Timers and `async`/`await` in `web_app.js` and `script.js`: each handler is modelled as running to completion at once, with no second input accepted meanwhile. The 200 ms delayed redraw in `updateInstruction` is treated as immediate.
- WebChatbot.SendDisabled: `waitingForResponse` is a parameter, not a field of the chatbot. `showLoading` (web_app.js:137-141) sets it to true and `hideLoading` (web_app.js:143-147) sets it back to false before each handler's later delays, so the model does not track it.
- WebChatbot.MentalHealthChatbot.HandleSendMessage: the atomic reading hides overlapping sends. `hideLoading` re-enables Send before the empathy delay (web_app.js:224, 239). `completeAssessment` is called without `await` (web_app.js:247). `currentStage` stays 2 through its delays until web_app.js:352. An answer sent during those delays is scored as well: an eighth answer pushes an eighth score and runs the completion again. The invariant `|gad7Scores| == currentQuestionIndex <= 7` holds only for sends that wait for the previous reply to finish.
- `script.js`: Start Over and Review Steps rewrite the card's markup and call `init()` again. The module-level button references then point at detached buttons, and listeners are added once more. The model keeps one set of buttons and one listener each. The progress percentage (floating point) is left out.
- `questionnaire.js`: amounts, hours and rates (floating point, `toFixed`), the locale date string, the bill-to and description display, and PDF and e-mail export are left out. The clock reading is a parameter given as an ISO timestamp.
- `app.py`: the language model and the document store are parameters. The classifier is a function from the normalised answer to the reply, or `None` when the call failed. Each store query is represented by the document it returned, or `None`. Console output, prompts, stage 3 (the coping-strategy search) and `main` are left out.
- TerminalChatbot.Stage1Journaling: when the inputs run out, `input()` raises `EOFError`, which the program does not catch. The model returns `None` there. A `KeyboardInterrupt` while an assessment answer is read is left out.
- TerminalChatbot.Stage2Assessment: the answers are given as the seven strings read in turn. What is printed between questions is left out.
- InvoiceWizard.Initials: `charAt(0)` and `slice(0, 3)` work on UTF-16 code units. For a word that starts with a character outside the Basic Multilingual Plane, the source takes a lone high surrogate. The model takes the whole character, because a Dafny `char` is a Unicode scalar value and cannot hold a lone surrogate.
- Text: case mapping and whitespace cover ASCII only. Unicode case expansions of `toLowerCase`/`toUpperCase`/`lower()` and Unicode whitespace are left out.
- WebChatbot.SimulateGad7Scoring: the phrase `"no "` is matched anywhere in the answer, as the code does (for example, in "piano every day").
- WebChatbot.ParameterText: an index past the end of a text table yields the empty text. The source would show `undefined`, but no reachable call passes such an index.
- PatientNotes: the notes file is the store's `content` field, holding the file's characters; each search reads it through `ReadText`, the universal-newline conversion of a text-mode read. UTF-8 decoding and the write side's conversion of '\n' to the platform line end are left out. Whether a write succeeds is the `writeSucceeds` parameter. A read failure, which returns `["Error: ..."]`, is left out. Flask routing and JSON typing are reduced to `Option` parameters: a missing query or field is `None`, and `case_sensitive` is a boolean. The JSON `null` and non-string values are left out.
- PatientNotes.SearchResults: defined as the line scan alone. `WholeTextCheckRedundant` proves that the source's early whole-text check never changes the result.
- PatientNotes.AddedNoteIsFound: the property "an added note is found by searching for the patient's name" holds only when no field holds '\n' or '\r' and the file does not end in a lone '\r'. A '\r' in a field is read back as a break (`TextMode.LoneReturnReadsAsBreak`), and a final '\r' joins the record's first '\n' into one break, so the name line moves or splits.
