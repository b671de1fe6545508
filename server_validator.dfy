/**
 * The server-side validators (class Validator of backend/validation.py):
 * the username, password and phone rules again, as Python functions that
 * return an `(ok, text)` pair. They are compared here with the browser-side
 * validators of module FormValidator. On ASCII text the password rules
 * agree, and the username and phone rules agree except at two precisely
 * stated points (Python's `$` and the characters stripped from phone
 * numbers). Outside ASCII the two languages count length and digits
 * differently, and the comparison is not claimed there.
 */
module ServerValidator {
  import opened Text
  import FV = FormValidator

  /**
   * The tuple `(ok, text)`: on failure `text` is the message; on success it
   * is `""` for username and password, and the cleaned number for a phone.
   */
  datatype PyResult = PyResult(ok: bool, text: string)

  /**
   * A Python `re.match` of `^X$` where `full(s)` says that `s` matches `^X\Z`:
   * Python's `$` matches at the very end and also just before a final `"\n"`.
   */
  predicate MatchesBeforeFinalNewline(s: string, full: string -> bool)
  {
    full(s) || (|s| > 0 && s[|s| - 1] == '\n' && full(s[..|s| - 1]))
  }

  /** backend/validation.py, validate_username. */
  function PyValidateUsername(username: string): (r: PyResult)
    ensures r.ok <==>
      && 4 <= |username| <= 20
      && (|| FV.IsUsernamePattern(username)
          || (username[|username| - 1] == '\n' && FV.IsUsernamePattern(username[..|username| - 1])))
    ensures r.ok <==> r.text == ""
    ensures username == "" ==> r == PyResult(false, FV.UsernameRequired)
  {
    if username == "" then PyResult(false, FV.UsernameRequired)
    else if |username| < 4 then PyResult(false, FV.UsernameTooShort)
    else if |username| > 20 then PyResult(false, FV.UsernameTooLong)
    else if !MatchesBeforeFinalNewline(username, FV.IsUsernamePattern) then
      PyResult(false, FV.UsernameBadChars)
    else PyResult(true, "")
  }

  /** backend/validation.py, validate_password. */
  function PyValidatePassword(password: string): (r: PyResult)
    ensures r.ok <==> |password| >= 8 && FV.HasAllClasses(password)
    ensures r.ok <==> r.text == ""
    ensures password == "" ==> r == PyResult(false, FV.PasswordRequired)
  {
    if password == "" then PyResult(false, FV.PasswordRequired)
    else if |password| < 8 then PyResult(false, FV.PasswordTooShort)
    else if !FV.HasUppercase(password) then PyResult(false, FV.PasswordNoUpper)
    else if !FV.HasLowercase(password) then PyResult(false, FV.PasswordNoLower)
    else if !FV.HasNumber(password) then PyResult(false, FV.PasswordNoNumber)
    else if !FV.HasSpecialChar(password) then PyResult(false, FV.PasswordNoSpecial)
    else PyResult(true, "")
  }

  /** The two characters `phone.replace(' ', '').replace('-', '')` deletes. */
  predicate IsPySeparator(c: char) { c == ' ' || c == '-' }

  /** backend/validation.py, validate_phone. */
  function PyValidatePhone(phone: string): (r: PyResult)
    ensures r.ok <==>
      var p := RemoveWhere(phone, IsPySeparator);
      phone != "" && (FV.IsMobileNumber(p) || (|p| == 12 && p[11] == '\n' && FV.IsMobileNumber(p[..11])))
    ensures r.ok ==>
      && r.text == RemoveWhere(phone, IsPySeparator)
      && FV.IsMobileNumber(r.text[..11])
      && (|r.text| == 11 || r.text[11..] == "\n")
    ensures phone == "" ==> r == PyResult(false, FV.PhoneRequired)
  {
    if phone == "" then PyResult(false, FV.PhoneRequired)
    else
      var cleaned := RemoveWhere(phone, IsPySeparator);
      if !MatchesBeforeFinalNewline(cleaned, FV.IsMobileNumber) then
        PyResult(false, FV.PhoneInvalid)
      else PyResult(true, cleaned)
  }

  // ---------------------------------------------------------------------
  // Agreement with the browser-side validators
  // ---------------------------------------------------------------------

  /** The server's answer in the browser's terms. */
  function AsVerdict(r: PyResult): FV.Verdict
  {
    FV.Verdict(r.ok, if r.ok then "" else r.text)
  }

  /**
   * On ASCII text, unless the username ends in a newline, the server and the
   * browser give the same verdict and the same message.
   */
  lemma UsernameAgreesWithBrowser(username: string)
    requires IsAscii(username)
    requires username == "" || username[|username| - 1] != '\n'
    ensures AsVerdict(PyValidateUsername(username)) == FV.ValidateUsername(username)
  {
  }

  /**
   * The only disagreement on usernames: the server alone accepts a valid
   * length whose last character is a newline after at least three word
   * characters.
   */
  lemma UsernameDisagreement(username: string)
    ensures PyValidateUsername(username).ok != FV.ValidateUsername(username).valid <==>
      && 4 <= |username| <= 20
      && username[|username| - 1] == '\n'
      && FV.IsUsernamePattern(username[..|username| - 1])
  {
    if |username| > 0 && username[|username| - 1] == '\n' {
      assert !IsWordChar(username[|username| - 1]);
    }
  }

  /** `"abcd\n"` passes on the server and fails in the browser. */
  lemma NewlineUsernameExample()
    ensures PyValidateUsername("abcd\n") == PyResult(true, "")
    ensures FV.ValidateUsername("abcd\n") ==
      FV.Verdict(false, FV.UsernameBadChars)
  {
    var u := "abcd\n";
    assert u[..4] == "abcd";
    assert !IsWordChar(u[4]);
  }

  /** On ASCII passwords the server and the browser agree, message included. */
  lemma PasswordAgreesWithBrowser(password: string)
    requires IsAscii(password)
    ensures var b := FV.ValidatePassword(password);
      AsVerdict(PyValidatePassword(password)) == FV.Verdict(b.valid, b.message)
  {
  }

  /** Two ways of deleting characters agree on a string where they select alike. */
  lemma {:induction false} RemoveWhereAlike(s: string, d1: char -> bool, d2: char -> bool)
    requires forall i | 0 <= i < |s| :: d1(s[i]) == d2(s[i])
    ensures RemoveWhere(s, d1) == RemoveWhere(s, d2)
  {
    if s != [] {
      RemoveWhereAlike(s[1..], d1, d2);
    }
  }

  /**
   * When the number is ASCII and its only whitespace is the plain space, the
   * server and the browser agree on validity, and on success the server
   * returns the browser's cleaned number.
   */
  lemma PhoneAgreesWithBrowser(phone: string)
    requires IsAscii(phone)
    requires forall i | 0 <= i < |phone| :: IsJsSpace(phone[i]) ==> phone[i] == ' '
    ensures PyValidatePhone(phone).ok == FV.ValidatePhone(phone).valid
    ensures PyValidatePhone(phone).ok ==> FV.ValidatePhone(phone).cleaned == Some(PyValidatePhone(phone).text)
  {
    RemoveWhereAlike(phone, IsPySeparator, FV.IsPhoneSeparator);
    var p := RemoveWhere(phone, IsPySeparator);
    if |p| == 12 && p[11] == '\n' {
      assert FV.IsPhoneSeparator(p[11]);
    }
  }

  /** A valid mobile number contains no separator of either kind. */
  lemma MobileNumberHasNoSeparator(number: string)
    requires FV.IsMobileNumber(number)
    ensures forall i | 0 <= i < |number| :: !IsPySeparator(number[i]) && !FV.IsPhoneSeparator(number[i])
  {
    forall i | 0 <= i < |number| ensures !IsPySeparator(number[i]) && !FV.IsPhoneSeparator(number[i]) {
      if i >= 2 { assert IsAsciiDigit(number[i]); }
    }
  }

  /** The browser strips any whitespace character or dash after a valid number. */
  lemma BrowserStripsTrailingSeparator(number: string, sep: char)
    requires FV.IsMobileNumber(number) && FV.IsPhoneSeparator(sep)
    ensures FV.ValidatePhone(number + [sep]) == FV.CleanedVerdict(true, "", Some(number))
  {
    MobileNumberHasNoSeparator(number);
    assert FV.CleanPhone(number + [sep]) == number by {
      RemoveWhereNone(number, FV.IsPhoneSeparator);
      RemoveWhereAppend(number, [sep], FV.IsPhoneSeparator);
      assert RemoveWhere([sep], FV.IsPhoneSeparator) == "";
    }
  }

  /** The server accepts a valid number followed by a newline and returns the newline with it. */
  lemma ServerKeepsTrailingNewline(number: string)
    requires FV.IsMobileNumber(number)
    ensures PyValidatePhone(number + "\n") == PyResult(true, number + "\n")
  {
    var s := number + "\n";
    MobileNumberHasNoSeparator(number);
    assert RemoveWhere(s, IsPySeparator) == s by {
      assert forall i | 0 <= i < |s| :: !IsPySeparator(s[i]) by {
        assert forall i | 0 <= i < |number| :: s[i] == number[i];
      }
      RemoveWhereNone(s, IsPySeparator);
    }
    assert s[..11] == number;
  }

  /** The server rejects a valid number followed by a tab, which the browser accepts. */
  lemma ServerRejectsTrailingTab(number: string)
    requires FV.IsMobileNumber(number)
    ensures !PyValidatePhone(number + "\t").ok
  {
    var s := number + "\t";
    MobileNumberHasNoSeparator(number);
    assert RemoveWhere(s, IsPySeparator) == s by {
      assert forall i | 0 <= i < |s| :: !IsPySeparator(s[i]) by {
        assert forall i | 0 <= i < |number| :: s[i] == number[i];
      }
      RemoveWhereNone(s, IsPySeparator);
    }
    assert |s| == 12 && s[11] == '\t';
    assert !MatchesBeforeFinalNewline(s, FV.IsMobileNumber);
  }
}
