/** The credential validators of the sign-up form: each returns whether the
    input is acceptable and a message naming the first check that failed. */
module Credentials {

  /** The (ok, message) pair the validators return. */
  datatype Validation = Validation(ok: bool, message: string)

  const ValidMessage: string := "Valid"
  const UsernameEmpty: string := "Username cannot be empty"
  const UsernameNotLetters: string := "Username must contain only letters (no numbers or special characters)"
  const UsernameTooShort: string := "Username must be at least 3 characters long"
  const PasswordEmpty: string := "Password cannot be empty"
  const PasswordTooShort: string := "Password must be at least 6 characters long"
  const PasswordNoLetter: string := "Password must contain at least one letter"
  const PasswordNoDigit: string := "Password must contain at least one number"

  const MinUsernameLength: int := 3
  const MinPasswordLength: int := 6

  /** The character class `[a-zA-Z]`. */
  predicate IsAsciiLetter(c: char)
  {
    'a' <= c <= 'z' || 'A' <= c <= 'Z'
  }

  /** The character class `[0-9]`. */
  predicate IsAsciiDigit(c: char)
  {
    '0' <= c <= '9'
  }

  /** Every character is an ASCII letter. */
  predicate AllLetters(s: string)
  {
    forall i :: 0 <= i < |s| ==> IsAsciiLetter(s[i])
  }

  /** Some character is an ASCII letter: `re.search(r'[A-Za-z]', s)`. */
  predicate HasLetter(s: string)
  {
    exists i :: 0 <= i < |s| && IsAsciiLetter(s[i])
  }

  /** Some character is an ASCII digit: `re.search(r'[0-9]', s)`. */
  predicate HasDigit(s: string)
  {
    exists i :: 0 <= i < |s| && IsAsciiDigit(s[i])
  }

  /** `re.match(r'^[a-zA-Z]+$', s)` as Python evaluates it: without the
      MULTILINE flag `$` also matches just before a final newline, so one or
      more letters optionally followed by a single "\n" match. */
  predicate MatchesLettersAsWritten(s: string)
  {
    (|s| >= 1 && AllLetters(s))
    || (|s| >= 2 && s[|s| - 1] == '\n' && AllLetters(s[..|s| - 1]))
  }

  /** The username check as the source writes it: empty, then the letters
      pattern, then the length. */
  function ValidateUsernameAsWritten(username: string): (r: Validation)
    ensures r.ok <==> MatchesLettersAsWritten(username) && |username| >= MinUsernameLength
    ensures r.ok ==> r.message == ValidMessage
    ensures |username| == 0 ==> r == Validation(false, UsernameEmpty)
    ensures |username| > 0 && !MatchesLettersAsWritten(username) ==> r == Validation(false, UsernameNotLetters)
    ensures MatchesLettersAsWritten(username) && |username| < MinUsernameLength ==>
              r == Validation(false, UsernameTooShort)
  {
    if |username| == 0 then Validation(false, UsernameEmpty)
    else if !MatchesLettersAsWritten(username) then Validation(false, UsernameNotLetters)
    else if |username| < MinUsernameLength then Validation(false, UsernameTooShort)
    else Validation(true, ValidMessage)
  }

  /** The username check as its documentation states it: at least three
      characters, letters only; the message names the first failing check. */
  function ValidateUsername(username: string): (r: Validation)
    ensures r.ok <==> |username| >= MinUsernameLength && AllLetters(username)
    ensures r.ok ==> r.message == ValidMessage
    ensures |username| == 0 ==> r == Validation(false, UsernameEmpty)
    ensures |username| > 0 && !AllLetters(username) ==> r == Validation(false, UsernameNotLetters)
    ensures 0 < |username| < MinUsernameLength && AllLetters(username) ==>
              r == Validation(false, UsernameTooShort)
  {
    if |username| == 0 then Validation(false, UsernameEmpty)
    else if !AllLetters(username) then Validation(false, UsernameNotLetters)
    else if |username| < MinUsernameLength then Validation(false, UsernameTooShort)
    else Validation(true, ValidMessage)
  }

  /** The password check: at least six characters with at least one ASCII
      letter and one ASCII digit, any other characters allowed; the message
      names the first failing check. */
  function ValidatePassword(password: string): (r: Validation)
    ensures r.ok <==> |password| >= MinPasswordLength && HasLetter(password) && HasDigit(password)
    ensures r.ok ==> r.message == ValidMessage
    ensures |password| == 0 ==> r == Validation(false, PasswordEmpty)
    ensures 0 < |password| < MinPasswordLength ==> r == Validation(false, PasswordTooShort)
    ensures |password| >= MinPasswordLength && !HasLetter(password) ==>
              r == Validation(false, PasswordNoLetter)
    ensures |password| >= MinPasswordLength && HasLetter(password) && !HasDigit(password) ==>
              r == Validation(false, PasswordNoDigit)
  {
    if |password| == 0 then Validation(false, PasswordEmpty)
    else if |password| < MinPasswordLength then Validation(false, PasswordTooShort)
    else if !HasLetter(password) then Validation(false, PasswordNoLetter)
    else if !HasDigit(password) then Validation(false, PasswordNoDigit)
    else Validation(true, ValidMessage)
  }

  /** The message alone tells success from failure: "Valid" is never one of
      the failure messages. */
  lemma ValidMessageMeansAccepted(username: string, password: string)
    ensures ValidateUsername(username).message == ValidMessage <==> ValidateUsername(username).ok
    ensures ValidatePassword(password).message == ValidMessage <==> ValidatePassword(password).ok
  {
    assert |ValidMessage| == 5;
    assert |UsernameEmpty| > 5 && |UsernameNotLetters| > 5 && |UsernameTooShort| > 5;
    assert |PasswordEmpty| > 5 && |PasswordTooShort| > 5 && |PasswordNoLetter| > 5 && |PasswordNoDigit| > 5;
  }

  /** A valid username is letters only and a valid password needs a digit,
      so no string passes both checks. */
  lemma NoStringIsBothUsernameAndPassword(s: string)
    ensures !(ValidateUsername(s).ok && ValidatePassword(s).ok)
  {
  }

  /** The as-written check accepts exactly what the intended check accepts,
      plus a name of two or more letters followed by one trailing newline. */
  lemma AsWrittenAcceptance(username: string)
    ensures ValidateUsernameAsWritten(username).ok <==>
              ValidateUsername(username).ok
              || (|username| >= MinUsernameLength && username[|username| - 1] == '\n'
                  && AllLetters(username[..|username| - 1]))
  {
  }

  /** Without a trailing newline the two username checks agree entirely. */
  lemma AsWrittenAgreesWithoutTrailingNewline(username: string)
    requires |username| == 0 || username[|username| - 1] != '\n'
    ensures ValidateUsernameAsWritten(username) == ValidateUsername(username)
  {
  }

  /** "ab\n": two letters and a newline pass the as-written pattern and the
      length check (three characters), so the source accepts it; the
      intended check rejects it as not letters-only. */
  lemma TrailingNewlineAccepted()
    ensures ValidateUsernameAsWritten("ab\n") == Validation(true, ValidMessage)
    ensures ValidateUsername("ab\n") == Validation(false, UsernameNotLetters)
  {
    var u := "ab\n";
    assert u[..|u| - 1] == "ab";
    assert !IsAsciiLetter(u[2]);
  }
}
