/** The invoice questionnaire of questionnaire.js: eight questions asked one
    at a time with Back and Next buttons, the answers kept in a dictionary
    keyed by question, and the invoice number and customer id derived from
    the business name once the last question is answered. The page is
    reduced to the state the handlers read and write: the current index, the
    answers, the value of the answer box, the Back and Next button states and
    whether the closing reminder is shown. */
module InvoiceWizard {
  import opened Text
  import opened Sequences

  // ---------------------------------------------------------------------
  // The questions
  // ---------------------------------------------------------------------

  /** The answer each question asks for, in asking order; the program keys
      the answers dictionary by the matching ids ("businessName", …,
      "yourEmail"). */
  datatype Field =
    | BusinessName | ContactName | SendEmailTo | Description
    | Hours | HourlyRate | AdditionalCosts | YourEmail

  datatype InputType = TextInput | EmailInput | NumberInput

  const QuestionCount: nat := 8

  /** The field asked at position `k`. */
  function FieldAt(k: nat): Field
    requires k < QuestionCount
  {
    match k
    case 0 => BusinessName
    case 1 => ContactName
    case 2 => SendEmailTo
    case 3 => Description
    case 4 => Hours
    case 5 => HourlyRate
    case 6 => AdditionalCosts
    case _ => YourEmail
  }

  /** Position of a field in the asking order. */
  function Position(f: Field): (k: nat)
    ensures k < QuestionCount && FieldAt(k) == f
  {
    match f
    case BusinessName => 0
    case ContactName => 1
    case SendEmailTo => 2
    case Description => 3
    case Hours => 4
    case HourlyRate => 5
    case AdditionalCosts => 6
    case YourEmail => 7
  }

  /** Each field is asked exactly once: positions and fields correspond one
      to one. */
  lemma FieldAtInjective(j: nat, k: nat)
    requires j < QuestionCount && k < QuestionCount && FieldAt(j) == FieldAt(k)
    ensures j == k
  {
  }

  /** The question text the page shows for a field. */
  function Prompt(f: Field): string {
    match f
    case BusinessName => "Create invoice for (business name)"
    case ContactName => "Company Contact (name)"
    case SendEmailTo => "Email (send invoice to)"
    case Description => "What did you do?"
    case Hours => "How many hours?"
    case HourlyRate => "How much per hour?"
    case AdditionalCosts => "Any other costs?"
    case YourEmail => "Email copy (your email)"
  }

  /** The hint shown in the empty answer box. */
  function Placeholder(f: Field): string {
    match f
    case BusinessName => "e.g. Acme Corporation"
    case ContactName => "e.g. Jane Doe"
    case SendEmailTo => "e.g. billing@acme.com"
    case Description => "e.g. Website development and design"
    case Hours => "e.g. 40"
    case HourlyRate => "e.g. 75"
    case AdditionalCosts => "e.g. 250 (0 if none)"
    case YourEmail => "e.g. you@example.com"
  }

  /** The kind of answer box. */
  function InputTypeOf(f: Field): InputType {
    match f
    case SendEmailTo => EmailInput
    case YourEmail => EmailInput
    case Hours => NumberInput
    case HourlyRate => NumberInput
    case AdditionalCosts => NumberInput
    case _ => TextInput
  }

  const NextLabel: string := "Next"
  const FinishLabel: string := "Make My Invoice!"

  /** The caption of the Next button on question `k`. */
  function CaptionAt(k: nat): string {
    if k == QuestionCount - 1 then FinishLabel else NextLabel
  }

  // ---------------------------------------------------------------------
  // Invoice number and customer id
  // ---------------------------------------------------------------------

  /** The leading run of non-whitespace characters. */
  function WordPrefix(s: string): (w: string)
    ensures |w| <= |s| && w == s[..|w|]
    ensures forall i :: 0 <= i < |w| ==> !IsSpace(w[i])
    ensures |w| < |s| ==> IsSpace(s[|w|])
  {
    if s != [] && !IsSpace(s[0]) then [s[0]] + WordPrefix(s[1..]) else []
  }

  /** `s.split(/\s+/)`: the pieces between runs of whitespace. A leading or
      trailing run gives an empty first or last piece; an empty string gives
      one empty piece. */
  function SplitWs(s: string): (pieces: seq<string>)
    ensures |pieces| >= 1
    decreases |s|
  {
    var w := WordPrefix(s);
    if |w| == |s| then [w]
    else [w] + SplitWs(s[|w|..][LeadingSpaces(s[|w|..])..])
  }

  /** `w.charAt(0)`: the first character, or nothing for an empty piece. */
  function FirstChar(w: string): string {
    if w == [] then [] else [w[0]]
  }

  /** The first characters of the pieces, joined (`map` then `join("")`). */
  function JoinFirstChars(pieces: seq<string>): string {
    if pieces == [] then [] else FirstChar(pieces[0]) + JoinFirstChars(pieces[1..])
  }

  /** The characters that start a word of `s`: non-whitespace characters at
      the start or right after whitespace. `afterSpace` says whether the
      position before `s` counts as whitespace. */
  function WordStarts(s: string, afterSpace: bool): string {
    if s == [] then []
    else (if afterSpace && !IsSpace(s[0]) then [s[0]] else []) + WordStarts(s[1..], IsSpace(s[0]))
  }

  lemma {:induction false} WordStartsOfWord(w: string, rest: string, afterSpace: bool)
    requires w != [] && forall i :: 0 <= i < |w| ==> !IsSpace(w[i])
    ensures WordStarts(w + rest, afterSpace) ==
            (if afterSpace then [w[0]] else []) + WordStarts(rest, false)
    decreases |w|
  {
    var s := w + rest;
    assert s[0] == w[0] && s[1..] == w[1..] + rest;
    if |w| > 1 {
      WordStartsOfWord(w[1..], rest, false);
    } else {
      assert s[1..] == rest;
    }
  }

  lemma {:induction false} WordStartsOfSpaces(s: string, n: nat, afterSpace: bool)
    requires n <= |s| && forall i :: 0 <= i < n ==> IsSpace(s[i])
    ensures n > 0 ==> WordStarts(s, afterSpace) == WordStarts(s[n..], true)
    decreases n
  {
    if n > 1 {
      WordStartsOfSpaces(s[1..], n - 1, true);
      assert s[1..][n - 1..] == s[n..];
    }
  }

  /** The joined first characters of the pieces of `s.split(/\s+/)` are
      exactly the characters that start a word of `s`. */
  lemma {:induction false} InitialsAreWordStarts(s: string)
    ensures JoinFirstChars(SplitWs(s)) == WordStarts(s, true)
    decreases |s|
  {
    var w := WordPrefix(s);
    var pieces := SplitWs(s);
    if |w| == |s| {
      assert w == s;
      if s != [] {
        WordStartsOfWord(s, [], true);
        assert s + [] == s;
      }
    } else {
      var rest := s[|w|..];
      var k := LeadingSpaces(rest);
      assert k > 0 by {
        assert IsSpace(rest[0]);
      }
      var r := rest[k..];
      SkipMeansSpaces(rest, k);
      InitialsAreWordStarts(r);
      assert pieces[1..] == SplitWs(r);
      WordStartsOfSpaces(rest, k, w == []);
      if w != [] {
        assert s == w + rest;
        WordStartsOfWord(w, rest, true);
      } else {
        assert rest == s;
      }
    }
  }

  lemma SkipMeansSpaces(s: string, k: nat)
    requires k == LeadingSpaces(s)
    ensures k <= |s| && forall i :: 0 <= i < k ==> IsSpace(s[i])
  {
  }

  /** Up to three upper-cased initials of the business name. */
  function Initials(businessName: string): (r: string)
    ensures |r| <= 3
  {
    Take(Upper(JoinFirstChars(SplitWs(businessName))), 3)
  }

  /** The initials are the first three word-start characters of the name,
      upper-cased. */
  lemma InitialsFromWordStarts(businessName: string)
    ensures Initials(businessName) == Take(Upper(WordStarts(businessName, true)), 3)
  {
    InitialsAreWordStarts(businessName);
  }

  /** The date part of the number: the first ten characters of the ISO
      timestamp with every '-' removed. */
  function DatePart(isoTimestamp: string): string {
    RemoveDashes(Take(isoTimestamp, 10))
  }

  function RemoveDashes(s: string): (r: string)
    ensures '-' !in r
    ensures |r| <= |s|
  {
    if s == [] then [] else (if s[0] == '-' then [] else [s[0]]) + RemoveDashes(s[1..])
  }

  predicate AllDigits(s: string) {
    forall i :: 0 <= i < |s| ==> IsDigit(s[i])
  }

  lemma {:induction false} RemoveDashesKeepsDigits(s: string)
    requires AllDigits(s)
    ensures RemoveDashes(s) == s
  {
    if s != [] {
      RemoveDashesKeepsDigits(s[1..]);
      assert [s[0]] + s[1..] == s;
    }
  }

  lemma {:induction false} RemoveDashesAppend(a: string, b: string)
    ensures RemoveDashes(a + b) == RemoveDashes(a) + RemoveDashes(b)
  {
    if a != [] {
      assert (a + b)[0] == a[0] && (a + b)[1..] == a[1..] + b;
      RemoveDashesAppend(a[1..], b);
    } else {
      assert a + b == b;
    }
  }

  /** For a timestamp of the form YYYY-MM-DDThh:mm:ss.sssZ the date part is
      the eight digits YYYYMMDD. */
  lemma DatePartOfIsoTimestamp(year: string, month: string, day: string, rest: string)
    requires |year| == 4 && |month| == 2 && |day| == 2
    requires AllDigits(year) && AllDigits(month) && AllDigits(day)
    ensures DatePart(year + "-" + month + "-" + day + rest) == year + month + day
  {
    var dash := "-";
    var withYear := year + dash;
    var withMonth := withYear + month;
    var withDash := withMonth + dash;
    var date := withDash + day;
    assert Take(date + rest, 10) == date by {
      assert |date| == 10;
      assert (date + rest)[..10] == date;
    }
    assert RemoveDashes(dash) == [];
    assert RemoveDashes(withYear) == year by {
      RemoveDashesAppend(year, dash);
      RemoveDashesKeepsDigits(year);
    }
    assert RemoveDashes(withMonth) == year + month by {
      RemoveDashesAppend(withYear, month);
      RemoveDashesKeepsDigits(month);
    }
    assert RemoveDashes(withDash) == year + month by {
      RemoveDashesAppend(withMonth, dash);
    }
    assert RemoveDashes(date) == year + month + day by {
      RemoveDashesAppend(withDash, day);
      RemoveDashesKeepsDigits(day);
    }
  }

  /** The invoice number: the initials, a dash and the date part. */
  function InvoiceNumber(businessName: string, isoTimestamp: string): string {
    Initials(businessName) + "-" + DatePart(isoTimestamp)
  }

  /** The number splits back at its first dash into the initials and the
      date part, for names whose initials hold no dash. */
  lemma InvoiceNumberParts(businessName: string, isoTimestamp: string)
    requires '-' !in Initials(businessName)
    ensures var n := InvoiceNumber(businessName, isoTimestamp);
            var d := IndexOf(n, '-');
            d == |Initials(businessName)| && n[..d] == Initials(businessName) && n[d + 1..] == DatePart(isoTimestamp)
  {
    var i := Initials(businessName);
    var n := InvoiceNumber(businessName, isoTimestamp);
    assert n[|i|] == '-';
    assert forall j :: 0 <= j < |i| ==> n[j] == i[j];
    assert n[..|i|] == i;
  }

  predicate IsAlnum(c: char) {
    ('A' <= c <= 'Z') || ('a' <= c <= 'z') || ('0' <= c <= '9')
  }

  /** `replace(/[^A-Z0-9]/gi, "")`: the ASCII letters and digits, in order. */
  function KeepAlnum(s: string): (r: string)
    ensures |r| <= |s|
    ensures forall i :: 0 <= i < |r| ==> IsAlnum(r[i])
  {
    if s == [] then [] else (if IsAlnum(s[0]) then [s[0]] else []) + KeepAlnum(s[1..])
  }

  lemma {:induction false} KeepAlnumEmptyIff(s: string)
    ensures KeepAlnum(s) == [] <==> forall i :: 0 <= i < |s| ==> !IsAlnum(s[i])
  {
    if s != [] {
      KeepAlnumEmptyIff(s[1..]);
      assert forall i :: 1 <= i < |s| ==> s[i] == s[1..][i - 1];
    }
  }

  lemma {:induction false} KeepAlnumOfAlnum(s: string)
    requires forall i :: 0 <= i < |s| ==> IsAlnum(s[i])
    ensures KeepAlnum(s) == s
  {
    if s != [] {
      KeepAlnumOfAlnum(s[1..]);
      assert [s[0]] + s[1..] == s;
    }
  }

  /** The customer id: the name's letters and digits, cut to ten and
      upper-cased, or "-" when the name has none. */
  function CustomerId(businessName: string): (id: string)
    ensures 1 <= |id| <= 10
  {
    var cleaned := Upper(Take(KeepAlnum(businessName), 10));
    if cleaned == [] then "-" else cleaned
  }

  /** Keeping letters and digits distributes over concatenation. */
  lemma {:induction false} KeepAlnumAppend(a: string, b: string)
    ensures KeepAlnum(a + b) == KeepAlnum(a) + KeepAlnum(b)
  {
    if a == [] {
      assert a + b == b;
    } else {
      assert (a + b)[0] == a[0] && (a + b)[1..] == a[1..] + b;
      KeepAlnumAppend(a[1..], b);
    }
  }

  /** The id is "-" exactly when the name holds no ASCII letter or digit;
      otherwise it is the name's first ten letters and digits (all of them
      when there are fewer), in order and upper-cased. */
  lemma CustomerIdShape(businessName: string)
    ensures CustomerId(businessName) == "-" <==> forall i :: 0 <= i < |businessName| ==> !IsAlnum(businessName[i])
    ensures var kept := KeepAlnum(businessName);
            var id := CustomerId(businessName);
            id != "-" ==>
              && |id| == (if |kept| < 10 then |kept| else 10)
              && forall i :: 0 <= i < |id| ==> id[i] == UpperChar(kept[i])
    ensures CustomerId(businessName) != "-" ==>
              forall i :: 0 <= i < |CustomerId(businessName)| ==>
                IsAlnum(CustomerId(businessName)[i]) && !('a' <= CustomerId(businessName)[i] <= 'z')
  {
    KeepAlnumEmptyIff(businessName);
    var cleaned := Upper(Take(KeepAlnum(businessName), 10));
    if cleaned != [] {
      assert IsAlnum(KeepAlnum(businessName)[0]);
      assert !IsAlnum(cleaned[0]) ==> false;
      assert cleaned != "-";
    }
  }

  /** Whatever follows the tenth letter or digit of the name does not
      change the id. */
  lemma CustomerIdIgnoresTail(head: string, tail: string)
    requires |KeepAlnum(head)| >= 10
    ensures CustomerId(head + tail) == CustomerId(head)
  {
    KeepAlnumAppend(head, tail);
    var k := KeepAlnum(head);
    assert Take(k + KeepAlnum(tail), 10) == Take(k, 10) by {
      assert (k + KeepAlnum(tail))[..10] == k[..10];
    }
  }

  /** Deriving the id from an id gives it back. */
  lemma CustomerIdIdempotent(businessName: string)
    ensures CustomerId(CustomerId(businessName)) == CustomerId(businessName)
  {
    var id := CustomerId(businessName);
    CustomerIdShape(businessName);
    if id == "-" {
      assert !IsAlnum(id[0]);
      assert KeepAlnum(id) == [];
    } else {
      KeepAlnumOfAlnum(id);
      assert Upper(id) == id;
    }
  }

  // ---------------------------------------------------------------------
  // The wizard
  // ---------------------------------------------------------------------

  class Questionnaire {
    var currentIndex: int
    var answers: map<Field, string>
    /** The value of the answer box. */
    var input: string
    /** The question the page shows, with its text, hint and box kind. */
    var shownField: Field
    var questionText: string
    var placeholder: string
    var inputType: InputType
    var backDisabled: bool
    var nextCaption: string
    /** Whether the closing reminder (and its Continue button) is shown. */
    var reminderShown: bool

    /** The wizard invariant, and the page rendered for the current
        question: Back disabled exactly on the first question, the finishing
        caption exactly on the last. */
    ghost predicate Valid()
      reads this
    {
      && WizardInvariant(currentIndex, answers, reminderShown)
      && Rendered()
    }

    ghost predicate Rendered()
      reads this
      requires 0 <= currentIndex < QuestionCount
    {
      && shownField == FieldAt(currentIndex)
      && questionText == Prompt(shownField) && placeholder == Placeholder(shownField)
      && inputType == InputTypeOf(shownField)
      && (backDisabled <==> currentIndex == 0)
      && nextCaption == CaptionAt(currentIndex)
    }

    /** Loading the page renders the first question with no answers. */
    constructor ()
      ensures Valid()
      ensures currentIndex == 0 && answers == map[] && input == [] && !reminderShown
      ensures shownField == BusinessName && questionText == Prompt(BusinessName)
      ensures backDisabled && nextCaption == NextLabel
    {
      currentIndex := 0;
      answers := map[];
      input := [];
      reminderShown := false;
      new;
      Render();
    }

    /** Shows the current question: its stored answer (or nothing) in the
        answer box, Back disabled on the first question, and the finishing
        caption on the last. */
    method Render()
      requires 0 <= currentIndex < QuestionCount
      modifies this
      ensures currentIndex == old(currentIndex) && answers == old(answers) && reminderShown == old(reminderShown)
      ensures shownField == FieldAt(currentIndex)
      ensures questionText == Prompt(shownField) && placeholder == Placeholder(shownField)
      ensures inputType == InputTypeOf(shownField)
      ensures input == if FieldAt(currentIndex) in answers then answers[FieldAt(currentIndex)] else []
      ensures backDisabled <==> currentIndex == 0
      ensures nextCaption == CaptionAt(currentIndex)
    {
      var q := FieldAt(currentIndex);
      shownField := q;
      questionText := Prompt(q);
      inputType := InputTypeOf(q);
      placeholder := Placeholder(q);
      input := if q in answers then answers[q] else [];
      backDisabled := currentIndex == 0;
      nextCaption := CaptionAt(currentIndex);
    }

    /** The user types into the answer box. */
    method TypeAnswer(text: string)
      modifies this
      ensures input == text
      ensures currentIndex == old(currentIndex) && answers == old(answers) && reminderShown == old(reminderShown)
      ensures shownField == old(shownField) && backDisabled == old(backDisabled) && nextCaption == old(nextCaption)
      ensures questionText == old(questionText) && placeholder == old(placeholder) && inputType == old(inputType)
    {
      input := text;
    }

    /** Stores the trimmed box value under the current question. */
    method SaveCurrentAnswer()
      requires 0 <= currentIndex < QuestionCount
      modifies this
      ensures currentIndex == old(currentIndex) && input == old(input) && reminderShown == old(reminderShown)
      ensures answers == old(answers)[FieldAt(currentIndex) := Trim(input)]
      ensures shownField == old(shownField) && backDisabled == old(backDisabled) && nextCaption == old(nextCaption)
      ensures questionText == old(questionText) && placeholder == old(placeholder) && inputType == old(inputType)
    {
      var currentQuestion := FieldAt(currentIndex);
      answers := answers[currentQuestion := Trim(input)];
    }

    /** Back: always stores the current (trimmed, possibly blank) answer,
        then steps back and re-renders unless on the first question. */
    method Back()
      requires Valid()
      modifies this
      ensures Valid()
      ensures answers == old(answers)[FieldAt(old(currentIndex)) := Trim(old(input))]
      ensures currentIndex == if old(currentIndex) > 0 then old(currentIndex) - 1 else 0
      ensures reminderShown == old(reminderShown)
      ensures old(currentIndex) > 0 ==>
                && shownField == FieldAt(currentIndex) && questionText == Prompt(shownField)
                && input == answers[FieldAt(currentIndex)]
                && (backDisabled <==> currentIndex == 0) && nextCaption == NextLabel
      ensures old(currentIndex) == 0 ==>
                && input == old(input) && shownField == old(shownField) && questionText == old(questionText)
                && backDisabled == old(backDisabled) && nextCaption == old(nextCaption)
    {
      var i := currentIndex;
      SaveKeepsInvariant(i, answers, input, reminderShown);
      SaveCurrentAnswer();
      if i > 0 {
        StepBackKeepsInvariant(i, answers, reminderShown);
        assert FieldAt(i - 1) in answers;
        currentIndex := i - 1;
        Render();
      }
    }

    /** Next: a blank box changes nothing. Otherwise the trimmed answer is
        stored and the wizard advances, or on the last question shows the
        closing reminder and stays. */
    method Next()
      requires Valid()
      modifies this
      ensures Valid()
      ensures IsBlank(old(input)) ==> unchanged(this)
      ensures !IsBlank(old(input)) ==>
                && answers == old(answers)[FieldAt(old(currentIndex)) := Trim(old(input))]
                && (old(currentIndex) < QuestionCount - 1 ==>
                      && currentIndex == old(currentIndex) + 1 && reminderShown == old(reminderShown)
                      && shownField == FieldAt(currentIndex) && questionText == Prompt(shownField)
                      && input == (if FieldAt(currentIndex) in answers then answers[FieldAt(currentIndex)] else [])
                      && !backDisabled && nextCaption == CaptionAt(currentIndex))
                && (old(currentIndex) == QuestionCount - 1 ==>
                      && currentIndex == old(currentIndex) && reminderShown
                      && input == old(input) && shownField == old(shownField) && questionText == old(questionText)
                      && backDisabled == old(backDisabled) && nextCaption == old(nextCaption))
    {
      if Trim(input) == [] {
        return;
      }
      if currentIndex < QuestionCount - 1 {
        SaveAndAdvance();
      } else {
        SaveAndFinish();
      }
    }

    /** Next with a non-blank answer before the last question: the answer
        is stored and the following question is rendered. */
    method SaveAndAdvance()
      requires Valid() && !IsBlank(input) && currentIndex < QuestionCount - 1
      modifies this
      ensures Valid()
      ensures answers == old(answers)[FieldAt(old(currentIndex)) := Trim(old(input))]
      ensures currentIndex == old(currentIndex) + 1 && reminderShown == old(reminderShown)
      ensures shownField == FieldAt(currentIndex) && questionText == Prompt(shownField)
      ensures input == (if FieldAt(currentIndex) in answers then answers[FieldAt(currentIndex)] else [])
      ensures !backDisabled && nextCaption == CaptionAt(currentIndex)
    {
      AdvanceKeepsInvariant(currentIndex, answers, input, reminderShown);
      SaveCurrentAnswer();
      currentIndex := currentIndex + 1;
      Render();
    }

    /** Next with a non-blank answer to the last question: the answer is
        stored and the closing reminder shows over the unchanged page. */
    method SaveAndFinish()
      requires Valid() && currentIndex == QuestionCount - 1
      modifies this
      ensures Valid()
      ensures answers == old(answers)[FieldAt(old(currentIndex)) := Trim(old(input))]
      ensures currentIndex == old(currentIndex) && reminderShown
      ensures input == old(input) && shownField == old(shownField) && questionText == old(questionText)
      ensures backDisabled == old(backDisabled) && nextCaption == old(nextCaption)
    {
      FinishKeepsInvariant(currentIndex, answers, input, reminderShown);
      SaveCurrentAnswer();
      reminderShown := true;
    }

    /** Continue on the closing reminder: the invoice number and customer id
        for the stored business name, with the clock reading passed in as
        an ISO timestamp. */
    method BuildInvoice(isoTimestamp: string) returns (invoiceNumber: string, customerId: string)
      requires Valid() && reminderShown
      ensures invoiceNumber == InvoiceNumber(answers[BusinessName], isoTimestamp)
      ensures customerId == CustomerId(answers[BusinessName])
    {
      var businessName := answers[BusinessName];
      var initials := Take(Upper(JoinFirstChars(SplitWs(businessName))), 3);
      var datePart := RemoveDashes(Take(isoTimestamp, 10));
      invoiceNumber := initials + "-" + datePart;
      var cleaned := Upper(Take(KeepAlnum(businessName), 10));
      customerId := if cleaned == [] then "-" else cleaned;
    }
  }

  /** The wizard's invariant: the index stays within the questions, every
      question before the current one holds a non-blank answer, every stored
      answer is trimmed, and the business name is known once the closing
      reminder shows. */
  ghost predicate WizardInvariant(currentIndex: int, answers: map<Field, string>, reminderShown: bool) {
    && 0 <= currentIndex < QuestionCount
    && (forall k :: 0 <= k < currentIndex ==> FieldAt(k) in answers && !IsBlank(answers[FieldAt(k)]))
    && (forall f :: f in answers ==> Trim(answers[f]) == answers[f])
    && (reminderShown ==> BusinessName in answers)
  }

  /** Storing the trimmed box value under the current question, blank or
      not, keeps the invariant. */
  lemma SaveKeepsInvariant(i: int, answers: map<Field, string>, text: string, reminderShown: bool)
    requires WizardInvariant(i, answers, reminderShown)
    ensures WizardInvariant(i, answers[FieldAt(i) := Trim(text)], reminderShown)
  {
    var updated := answers[FieldAt(i) := Trim(text)];
    TrimIdempotent(text);
    forall k | 0 <= k < i
      ensures FieldAt(k) in updated && !IsBlank(updated[FieldAt(k)])
    {
      if FieldAt(k) == FieldAt(i) {
        FieldAtInjective(k, i);
      }
    }
  }

  /** Stepping back one question keeps the invariant. */
  lemma StepBackKeepsInvariant(i: int, answers: map<Field, string>, reminderShown: bool)
    requires WizardInvariant(i, answers, reminderShown) && i > 0
    ensures WizardInvariant(i - 1, answers, reminderShown)
  {
  }

  /** Storing a non-blank answer keeps every question up to the current
      one answered. */
  lemma AnsweredThrough(i: int, answers: map<Field, string>, text: string, reminderShown: bool)
    requires WizardInvariant(i, answers, reminderShown) && !IsBlank(text)
    ensures forall k :: 0 <= k <= i ==>
              FieldAt(k) in answers[FieldAt(i) := Trim(text)] && !IsBlank(answers[FieldAt(i) := Trim(text)][FieldAt(k)])
  {
    var updated := answers[FieldAt(i) := Trim(text)];
    SaveKeepsInvariant(i, answers, text, reminderShown);
    var t := Trim(text);
    assert !IsBlank(t) by {
      assert t != [] && !IsSpace(t[0]);
    }
    assert updated[FieldAt(i)] == t;
  }

  /** Advancing past a question answered with a non-blank value keeps the
      invariant. */
  lemma AdvanceKeepsInvariant(i: int, answers: map<Field, string>, text: string, reminderShown: bool)
    requires WizardInvariant(i, answers, reminderShown) && !IsBlank(text) && i < QuestionCount - 1
    ensures WizardInvariant(i + 1, answers[FieldAt(i) := Trim(text)], reminderShown)
  {
    SaveKeepsInvariant(i, answers, text, reminderShown);
    AnsweredThrough(i, answers, text, reminderShown);
  }

  /** Showing the reminder after a non-blank answer to the last question
      keeps the invariant. */
  lemma FinishKeepsInvariant(i: int, answers: map<Field, string>, text: string, reminderShown: bool)
    requires WizardInvariant(i, answers, reminderShown) && i == QuestionCount - 1
    ensures WizardInvariant(i, answers[FieldAt(i) := Trim(text)], true)
  {
    SaveKeepsInvariant(i, answers, text, reminderShown);
    assert FieldAt(0) == BusinessName;
  }

  /** When the reminder shows, every one of the eight questions holds a
      non-blank answer. */
  lemma AllAnsweredAtReminder(answers: map<Field, string>, reminderShown: bool, text: string, full: map<Field, string>)
    requires WizardInvariant(QuestionCount - 1, answers, reminderShown) && !IsBlank(text)
    requires full == answers[FieldAt(QuestionCount - 1) := Trim(text)]
    ensures forall f: Field :: f in full && !IsBlank(full[f])
  {
    forall f: Field ensures f in full && !IsBlank(full[f]) {
      var k := Position(f);
      if k == QuestionCount - 1 {
        assert full[f] == Trim(text);
      } else {
        assert FieldAt(k) in answers;
      }
    }
  }
}
