/** The login form check of login.js: the trimmed email must be non-empty
    and hold an '@', then the untrimmed password must have at least eight
    UTF-16 code units; the first rule that fails names the error shown. */
module LoginForm {
  import opened Text

  const InvalidEmailMessage: string := "Please enter a valid email."
  const ShortPasswordMessage: string := "Password must be at least 8 characters."
  const MinPasswordLength: nat := 8

  /** What the click handler leaves on the page: an error message shown, or
      the message cleared and the login accepted. */
  datatype Outcome = ShowError(message: string) | LoginAccepted

  /** The UTF-16 code units a character takes: two for a character outside
      the Basic Multilingual Plane (a surrogate pair), one otherwise. */
  function CodeUnits(c: char): nat {
    if c as int >= 0x1_0000 then 2 else 1
  }

  /** JavaScript's `length`: the number of UTF-16 code units. */
  function Utf16Length(s: string): (n: nat)
    ensures |s| <= n <= 2 * |s|
    ensures (forall i :: 0 <= i < |s| ==> (s[i] as int) < 0x1_0000) ==> n == |s|
  {
    if s == [] then 0 else Utf16Length(s[..|s| - 1]) + CodeUnits(s[|s| - 1])
  }

  predicate EmailAcceptable(email: string) {
    var trimmed := Trim(email);
    !(trimmed == [] || '@' !in trimmed)
  }

  /** The login button's handler: the email rule first, then the password
      rule. */
  function Validate(emailValue: string, passwordValue: string): (r: Outcome)
    ensures r == ShowError(InvalidEmailMessage) <==> !EmailAcceptable(emailValue)
    ensures r == ShowError(ShortPasswordMessage) <==>
              EmailAcceptable(emailValue) && Utf16Length(passwordValue) < MinPasswordLength
    ensures r == LoginAccepted <==>
              EmailAcceptable(emailValue) && Utf16Length(passwordValue) >= MinPasswordLength
  {
    var email := Trim(emailValue);
    var password := passwordValue;
    if email == [] || '@' !in email then ShowError(InvalidEmailMessage)
    else if Utf16Length(password) < MinPasswordLength then ShowError(ShortPasswordMessage)
    else LoginAccepted
  }

  /** The email rule amounts to "the box holds an '@' somewhere": the
      emptiness test and the trimming never change its verdict. */
  lemma EmailRuleIsAtSign(emailValue: string)
    ensures EmailAcceptable(emailValue) <==> '@' in emailValue
  {
    var t := Trim(emailValue);
    var start := LeadingSpaces(emailValue);
    if '@' in emailValue {
      var i :| 0 <= i < |emailValue| && emailValue[i] == '@';
      assert !IsSpace(emailValue[i]);
      assert start <= i < start + |t|;
      assert t[i - start] == '@';
    }
  }

  /** An invalid email gives the email error whatever the password. */
  lemma EmailRuleFirst(emailValue: string, password1: string, password2: string)
    requires '@' !in emailValue
    ensures Validate(emailValue, password1) == Validate(emailValue, password2) == ShowError(InvalidEmailMessage)
  {
    EmailRuleIsAtSign(emailValue);
  }

  /** The password is measured untrimmed, in code units: eight pass,
      blanks included, and seven never do. */
  lemma PasswordBoundary(emailValue: string, password: string)
    requires '@' in emailValue
    ensures Utf16Length(password) == 8 ==> Validate(emailValue, password) == LoginAccepted
    ensures Utf16Length(password) == 7 ==> Validate(emailValue, password) == ShowError(ShortPasswordMessage)
    ensures Validate(emailValue, "        ") == LoginAccepted
  {
    EmailRuleIsAtSign(emailValue);
  }

  /** A character outside the Basic Multilingual Plane counts twice:
      four emoji make eight code units and pass. */
  lemma {:induction false} AstralCharactersCountTwice(emailValue: string)
    requires '@' in emailValue
    ensures Validate(emailValue, "\U{1F600}\U{1F600}\U{1F600}\U{1F600}") == LoginAccepted
  {
    EmailRuleIsAtSign(emailValue);
    var e := '\U{1F600}';
    assert Utf16Length([e]) == 2 by {
      assert [e][..0] == [];
    }
    assert Utf16Length([e, e]) == 4 by {
      assert [e, e][..1] == [e];
    }
    assert Utf16Length([e, e, e]) == 6 by {
      assert [e, e, e][..2] == [e, e];
    }
    assert Utf16Length([e, e, e, e]) == 8 by {
      assert [e, e, e, e][..3] == [e, e, e];
    }
  }

  /** Letters count once and an emoji twice: six letters and one emoji
      make eight code units and pass; three letters and one emoji make
      five and fail. */
  lemma {:induction false} LettersAndEmoji(emailValue: string)
    requires '@' in emailValue
    ensures Validate(emailValue, "abcdef\U{1F600}") == LoginAccepted
    ensures Validate(emailValue, "abc\U{1F600}") == ShowError(ShortPasswordMessage)
  {
    EmailRuleIsAtSign(emailValue);
    var e := '\U{1F600}';
    assert Utf16Length("abcdef" + [e]) == 8 by {
      assert ("abcdef" + [e])[..6] == "abcdef";
    }
    assert Utf16Length("abc" + [e]) == 5 by {
      assert ("abc" + [e])[..3] == "abc";
    }
  }

  /** Surrounding whitespace in the email box never changes the outcome. */
  lemma EmailTrimmedFirst(emailValue: string, password: string)
    ensures Validate(Trim(emailValue), password) == Validate(emailValue, password)
  {
    TrimIdempotent(emailValue);
  }
}
