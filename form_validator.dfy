/**
 * The browser-side field validators (class FormValidator of
 * frontend/js/validation.js). Each one is a pure function from the raw field
 * value to a verdict record; the checks run in a fixed order and the first
 * one that fails decides the message.
 */
module FormValidator {
  import opened Text

  /** `{ valid, message }` */
  datatype Verdict = Verdict(valid: bool, message: string)

  /** The strength classes `'none'`, `'weak'`, `'medium'`, `'strong'`. */
  datatype Strength = NoStrength | Weak | Medium | Strong

  /** `{ valid, message, strength }` */
  datatype PasswordVerdict = PasswordVerdict(valid: bool, message: string, strength: Strength)

  /** `{ valid, message[, cleaned] }`: `cleaned` is present on success only. */
  datatype CleanedVerdict = CleanedVerdict(valid: bool, message: string, cleaned: Option<string>)

  // ---------------------------------------------------------------------
  // Messages
  // ---------------------------------------------------------------------

  const UsernameRequired: string := "Username is required"
  const UsernameTooShort: string := "Username must be at least 4 characters"
  const UsernameTooLong: string := "Username must not exceed 20 characters"
  const UsernameBadChars: string := "Username can only contain letters, numbers, and underscores"
  const PasswordRequired: string := "Password is required"
  const PasswordTooShort: string := "Password must be at least 8 characters"
  const PasswordNoUpper: string := "Password must contain at least one uppercase letter"
  const PasswordNoLower: string := "Password must contain at least one lowercase letter"
  const PasswordNoNumber: string := "Password must contain at least one number"
  const PasswordNoSpecial: string := "Password must contain at least one special character"
  const EmailRequired: string := "Email is required"
  const EmailInvalid: string := "Please enter a valid email address"
  const PhoneRequired: string := "Phone number is required"
  const PhoneInvalid: string := "Phone must be 11 digits starting with 09"
  const NameRequired: string := "Full name is required"
  const NameTooShort: string := "Name must be at least 2 characters"
  const NameTooLong: string := "Name must not exceed 100 characters"
  const NameBadChars: string := "Name can only contain letters, spaces, hyphens, and periods"
  const RoleMissing: string := "Please select a role"
  const RoleInvalid: string := "Invalid role selected"
  const FileBadType: string := "Only JPG and PNG files are allowed"
  const FileTooLarge: string := "File size must not exceed 2MB"
  const DateRequired: string := "Date is required"
  const DateInFuture: string := "Employment date cannot be in the future"

  // ---------------------------------------------------------------------
  // A validator as an ordered list of checks (reference definition)
  // ---------------------------------------------------------------------

  /** One check of a validator: whether it passes and what it reports if not. */
  datatype Rule = Rule(holds: bool, message: string)

  /**
   * The verdict of running `rules` in order and stopping at the first one
   * that fails.
   */
  function FirstFailure(rules: seq<Rule>): (v: Verdict)
    ensures v.valid <==> forall i | 0 <= i < |rules| :: rules[i].holds
    ensures v.valid ==> v.message == ""
    ensures !v.valid ==>
      exists i | 0 <= i < |rules| ::
        && !rules[i].holds
        && v.message == rules[i].message
        && forall j | 0 <= j < i :: rules[j].holds
  {
    if rules == [] then Verdict(true, "")
    else if !rules[0].holds then Verdict(false, rules[0].message)
    else
      var v := FirstFailure(rules[1..]);
      assert forall i | 1 <= i < |rules| :: rules[i] == rules[1..][i - 1];
      v
  }

  /** One step of the ladder: the head decides unless it passes. */
  lemma FirstFailureStep(rules: seq<Rule>)
    requires rules != []
    ensures FirstFailure(rules) ==
      if !rules[0].holds then Verdict(false, rules[0].message) else FirstFailure(rules[1..])
  {
  }

  // ---------------------------------------------------------------------
  // Username
  // ---------------------------------------------------------------------

  /** `/^[a-zA-Z0-9_]+$/.test(s)` */
  predicate IsUsernamePattern(s: string)
  {
    |s| > 0 && forall i | 0 <= i < |s| :: IsWordChar(s[i])
  }

  /** frontend/js/validation.js, validateUsername. */
  function ValidateUsername(username: string): (r: Verdict)
    ensures r.valid <==> 4 <= |username| <= 20 && forall i | 0 <= i < |username| :: IsWordChar(username[i])
    ensures r.valid <==> r.message == ""
  {
    if username == "" then Verdict(false, UsernameRequired)
    else if |username| < 4 then Verdict(false, UsernameTooShort)
    else if |username| > 20 then Verdict(false, UsernameTooLong)
    else if !IsUsernamePattern(username) then
      Verdict(false, UsernameBadChars)
    else Verdict(true, "")
  }

  /** The username checks, in the order the validator runs them. */
  function UsernameRules(username: string): seq<Rule>
  {
    [ Rule(username != "", UsernameRequired),
      Rule(|username| >= 4, UsernameTooShort),
      Rule(|username| <= 20, UsernameTooLong),
      Rule(IsUsernamePattern(username), UsernameBadChars) ]
  }

  /** The reported message is that of the first failing username check. */
  lemma UsernameReportsFirstFailure(username: string)
    ensures ValidateUsername(username) == FirstFailure(UsernameRules(username))
  {
    var r0 := UsernameRules(username);
    var r1, r2, r3 := r0[1..], r0[2..], r0[3..];
    assert r0[2..] == r1[1..] && r0[3..] == r2[1..] && r3[1..] == [];
    FirstFailureStep(r0); FirstFailureStep(r1); FirstFailureStep(r2); FirstFailureStep(r3);
  }

  /** `"ab"` is too short, and the length message wins over the others. */
  lemma UsernameTooShortExample()
    ensures ValidateUsername("ab") == Verdict(false, UsernameTooShort)
  {
  }

  // ---------------------------------------------------------------------
  // Password
  // ---------------------------------------------------------------------

  predicate HasUppercase(s: string) { exists i | 0 <= i < |s| :: IsAsciiUpper(s[i]) }
  predicate HasLowercase(s: string) { exists i | 0 <= i < |s| :: IsAsciiLower(s[i]) }
  predicate HasNumber(s: string) { exists i | 0 <= i < |s| :: IsAsciiDigit(s[i]) }

  /** The class `[!@#$%^&*(),.?":{}|<>]`. */
  predicate IsSpecialChar(c: char) { c in "!@#$%^&*(),.?\":{}|<>" }

  predicate HasSpecialChar(s: string) { exists i | 0 <= i < |s| :: IsSpecialChar(s[i]) }

  /** All four character classes occur. */
  predicate HasAllClasses(s: string)
  {
    HasUppercase(s) && HasLowercase(s) && HasNumber(s) && HasSpecialChar(s)
  }

  /** `[hasUppercase, hasLowercase, hasNumber, hasSpecialChar].filter(Boolean).length` */
  function CriteriaMet(s: string): (n: nat)
    ensures n <= 4
    ensures n == 4 <==> HasAllClasses(s)
  {
    (if HasUppercase(s) then 1 else 0) + (if HasLowercase(s) then 1 else 0)
    + (if HasNumber(s) then 1 else 0) + (if HasSpecialChar(s) then 1 else 0)
  }

  /** frontend/js/validation.js, validatePassword. */
  function ValidatePassword(password: string): (r: PasswordVerdict)
    ensures r.valid <==> |password| >= 8 && HasAllClasses(password)
    ensures r.valid <==> r.message == ""
    ensures r.strength == NoStrength <==> password == ""
    ensures r.strength == Strong <==> |password| >= 12 && HasAllClasses(password)
    ensures r.strength == Medium <==>
      |password| >= 8 && CriteriaMet(password) >= 3 && !(|password| >= 12 && HasAllClasses(password))
    ensures r.valid ==> r.strength == Medium || r.strength == Strong
  {
    if password == "" then PasswordVerdict(false, PasswordRequired, NoStrength)
    else if |password| < 8 then PasswordVerdict(false, PasswordTooShort, Weak)
    else
      var criteria := CriteriaMet(password);
      var strength :=
        if criteria == 4 && |password| >= 12 then Strong
        else if criteria >= 3 && |password| >= 8 then Medium
        else Weak;
      if !HasUppercase(password) then
        PasswordVerdict(false, PasswordNoUpper, strength)
      else if !HasLowercase(password) then
        PasswordVerdict(false, PasswordNoLower, strength)
      else if !HasNumber(password) then
        PasswordVerdict(false, PasswordNoNumber, strength)
      else if !HasSpecialChar(password) then
        PasswordVerdict(false, PasswordNoSpecial, strength)
      else PasswordVerdict(true, "", strength)
  }

  /** The password checks, in the order the validator runs them. */
  function PasswordRules(password: string): seq<Rule>
  {
    [ Rule(password != "", PasswordRequired),
      Rule(|password| >= 8, PasswordTooShort),
      Rule(HasUppercase(password), PasswordNoUpper),
      Rule(HasLowercase(password), PasswordNoLower),
      Rule(HasNumber(password), PasswordNoNumber),
      Rule(HasSpecialChar(password), PasswordNoSpecial) ]
  }

  /** Validity and message are those of the first failing password check. */
  lemma PasswordReportsFirstFailure(password: string)
    ensures var r := ValidatePassword(password);
      Verdict(r.valid, r.message) == FirstFailure(PasswordRules(password))
  {
    PasswordRulesInOrder(password);
  }

  /** The password checks, run one after the other. */
  lemma PasswordRulesInOrder(password: string)
    ensures FirstFailure(PasswordRules(password)) ==
      if password == "" then Verdict(false, PasswordRequired)
      else if |password| < 8 then Verdict(false, PasswordTooShort)
      else if !HasUppercase(password) then Verdict(false, PasswordNoUpper)
      else if !HasLowercase(password) then Verdict(false, PasswordNoLower)
      else if !HasNumber(password) then Verdict(false, PasswordNoNumber)
      else if !HasSpecialChar(password) then Verdict(false, PasswordNoSpecial)
      else Verdict(true, "")
  {
    var r0 := PasswordRules(password);
    var r1, r2, r3, r4, r5 := r0[1..], r0[2..], r0[3..], r0[4..], r0[5..];
    assert r0[2..] == r1[1..] && r0[3..] == r2[1..] && r0[4..] == r3[1..] && r0[5..] == r4[1..];
    assert r5[1..] == [];
    FirstFailureStep(r0); FirstFailureStep(r1); FirstFailureStep(r2);
    FirstFailureStep(r3); FirstFailureStep(r4); FirstFailureStep(r5);
  }

  /** A strong password is always a valid one. */
  lemma StrongPasswordIsValid(password: string)
    requires ValidatePassword(password).strength == Strong
    ensures ValidatePassword(password).valid
  {
  }

  /**
   * Strength is computed before the class checks: `"Password12"` is rejected
   * for lacking a special character, yet rated medium.
   */
  lemma MediumButInvalidExample()
    ensures ValidatePassword("Password12") ==
      PasswordVerdict(false, PasswordNoSpecial, Medium)
  {
    var p := "Password12";
    assert IsAsciiUpper(p[0]) && IsAsciiLower(p[1]) && IsAsciiDigit(p[8]);
    forall i | 0 <= i < |p| ensures !IsSpecialChar(p[i]) {
      assert IsAsciiLetter(p[i]) || IsAsciiDigit(p[i]);
    }
  }

  /** `"Password1!"` is accepted and rated medium, being shorter than 12. */
  lemma ValidMediumExample()
    ensures ValidatePassword("Password1!") == PasswordVerdict(true, "", Medium)
  {
    var q := "Password1!";
    assert IsAsciiUpper(q[0]) && IsAsciiLower(q[1]) && IsAsciiDigit(q[8]) && IsSpecialChar(q[9]);
  }

  // ---------------------------------------------------------------------
  // Email
  // ---------------------------------------------------------------------

  /** A non-empty run of `[^\s@]`. */
  predicate IsEmailPart(s: string)
  {
    |s| > 0 && forall i | 0 <= i < |s| :: !IsJsSpace(s[i]) && s[i] != '@'
  }

  /**
   * `email` splits at `at` and `dot` as `/^[^\s@]+@[^\s@]+\.[^\s@]+$/`
   * requires: local part, `@`, domain, `.`, final part.
   */
  predicate EmailSplitAt(email: string, at: int, dot: int)
  {
    && 0 < at < dot < |email|
    && email[at] == '@' && email[dot] == '.'
    && IsEmailPart(email[..at]) && IsEmailPart(email[at + 1..dot]) && IsEmailPart(email[dot + 1..])
  }

  /** `/^[^\s@]+@[^\s@]+\.[^\s@]+$/.test(email)`: some split of the string fits the pattern. */
  predicate MatchesEmailPattern(email: string)
  {
    exists at, dot | 0 < at < dot < |email| :: EmailSplitAt(email, at, dot)
  }

  /** `@` occurs at index `at` and nowhere else. */
  predicate OnlyAtSignAt(email: string, at: int)
  {
    0 <= at < |email| && email[at] == '@' &&
    forall k | 0 <= k < |email| :: email[k] == '@' ==> k == at
  }

  /**
   * What the pattern amounts to: no whitespace, exactly one `@`, a non-empty
   * part before it, and a `.` after it that is neither the first nor the last
   * character of the domain.
   */
  predicate IsSimpleEmail(email: string)
  {
    && NoJsSpace(email)
    && exists at | 0 < at < |email| ::
         && OnlyAtSignAt(email, at)
         && exists dot | at + 1 < dot < |email| - 1 :: email[dot] == '.'
  }

  /** Every string the pattern accepts is a simple email. */
  lemma EmailPatternSound(email: string)
    requires MatchesEmailPattern(email)
    ensures IsSimpleEmail(email)
  {
    var at, dot :| 0 < at < dot < |email| && EmailSplitAt(email, at, dot);
    var local, domain, top := email[..at], email[at + 1..dot], email[dot + 1..];
    forall k | 0 <= k < |email|
      ensures !IsJsSpace(email[k]) && (email[k] == '@' ==> k == at)
    {
      if k < at { assert email[k] == local[k]; }
      else if at < k < dot { assert email[k] == domain[k - at - 1]; }
      else if dot < k { assert email[k] == top[k - dot - 1]; }
    }
    assert OnlyAtSignAt(email, at);
  }

  /** Every simple email is accepted by the pattern. */
  lemma EmailPatternComplete(email: string)
    requires IsSimpleEmail(email)
    ensures MatchesEmailPattern(email)
  {
    var at :| 0 < at < |email| && OnlyAtSignAt(email, at) &&
      exists dot | at + 1 < dot < |email| - 1 :: email[dot] == '.';
    var dot :| at + 1 < dot < |email| - 1 && email[dot] == '.';
    assert EmailSplitAt(email, at, dot);
  }

  /** The pattern accepts exactly the simple emails. */
  lemma EmailPatternCharacterized(email: string)
    ensures MatchesEmailPattern(email) <==> IsSimpleEmail(email)
  {
    if MatchesEmailPattern(email) { EmailPatternSound(email); }
    if IsSimpleEmail(email) { EmailPatternComplete(email); }
  }

  /** frontend/js/validation.js, validateEmail. */
  function ValidateEmail(email: string): (r: Verdict)
    ensures r.valid <==> IsSimpleEmail(email)
    ensures r.valid <==> r.message == ""
  {
    EmailPatternCharacterized(email);
    if email == "" then Verdict(false, EmailRequired)
    else if !MatchesEmailPattern(email) then Verdict(false, EmailInvalid)
    else Verdict(true, "")
  }

  // ---------------------------------------------------------------------
  // Phone
  // ---------------------------------------------------------------------

  /** The class `[\s-]` that `phone.replace(/[\s-]/g, '')` deletes. */
  predicate IsPhoneSeparator(c: char) { IsJsSpace(c) || c == '-' }

  /** `phone.replace(/[\s-]/g, '')` */
  function CleanPhone(phone: string): string
  {
    RemoveWhere(phone, IsPhoneSeparator)
  }

  /** `/^09\d{9}$/.test(s)` */
  predicate IsMobileNumber(s: string)
  {
    |s| == 11 && s[0] == '0' && s[1] == '9' && forall i | 2 <= i < 11 :: IsAsciiDigit(s[i])
  }

  /** frontend/js/validation.js, validatePhone. */
  function ValidatePhone(phone: string): (r: CleanedVerdict)
    ensures r.valid <==> phone != "" && IsMobileNumber(CleanPhone(phone))
    ensures r.valid <==> r.message == ""
    ensures r.cleaned == (if r.valid then Some(CleanPhone(phone)) else None)
    ensures r.cleaned.Some? ==>
      && |r.cleaned.value| == 11 && r.cleaned.value[..2] == "09"
      && (forall i | 2 <= i < 11 :: IsAsciiDigit(r.cleaned.value[i]))
      && (forall c :: !IsPhoneSeparator(c) ==> multiset(r.cleaned.value)[c] == multiset(phone)[c])
  {
    if phone == "" then CleanedVerdict(false, PhoneRequired, None)
    else
      var clean := CleanPhone(phone);
      RemoveWhereCounts(phone, IsPhoneSeparator);
      if !IsMobileNumber(clean) then CleanedVerdict(false, PhoneInvalid, None)
      else CleanedVerdict(true, "", Some(clean))
  }

  /**
   * A whitespace character or dash anywhere in a non-empty number changes
   * nothing: the verdict, message and cleaned number are the same without it.
   */
  lemma PhoneIgnoresSeparator(before: string, sep: char, after: string)
    requires IsPhoneSeparator(sep) && before + after != ""
    ensures ValidatePhone(before + [sep] + after) == ValidatePhone(before + after)
  {
    var withSep, without := before + [sep] + after, before + after;
    assert CleanPhone(withSep) == CleanPhone(without) by {
      RemoveWhereAppend(before + [sep], after, IsPhoneSeparator);
      RemoveWhereAppend(before, [sep], IsPhoneSeparator);
      RemoveWhereAppend(before, after, IsPhoneSeparator);
      assert RemoveWhere([sep], IsPhoneSeparator) == [];
    }
    assert withSep != "";
  }

  /** `"09"` followed by nine digits is accepted and comes back unchanged. */
  lemma MobileNumberAccepted(digits: string)
    requires |digits| == 9 && forall i | 0 <= i < 9 :: IsAsciiDigit(digits[i])
    ensures ValidatePhone("09" + digits) == CleanedVerdict(true, "", Some("09" + digits))
  {
    var s := "09" + digits;
    assert forall i | 0 <= i < |s| :: !IsPhoneSeparator(s[i]) by {
      forall i | 0 <= i < |s| ensures !IsPhoneSeparator(s[i]) {
        if i >= 2 { assert s[i] == digits[i - 2]; }
      }
    }
    RemoveWhereNone(s, IsPhoneSeparator);
    assert forall i | 2 <= i < 11 :: s[i] == digits[i - 2];
  }

  // ---------------------------------------------------------------------
  // Full name
  // ---------------------------------------------------------------------

  /** The class `[a-zA-Z\s\-.]`. */
  predicate IsNameChar(c: char) { IsAsciiLetter(c) || IsJsSpace(c) || c == '-' || c == '.' }

  /** frontend/js/validation.js, validateFullName. */
  function ValidateFullName(name: string): (r: CleanedVerdict)
    ensures r.valid <==>
      && name != ""
      && 2 <= |Trim(name)| <= 100
      && forall i | 0 <= i < |Trim(name)| :: IsNameChar(Trim(name)[i])
    ensures r.valid <==> r.message == ""
    ensures r.cleaned == (if r.valid then Some(Trim(name)) else None)
  {
    if name == "" then CleanedVerdict(false, NameRequired, None)
    else
      var trimmed := Trim(name);
      if |trimmed| < 2 then CleanedVerdict(false, NameTooShort, None)
      else if |trimmed| > 100 then CleanedVerdict(false, NameTooLong, None)
      else if !(forall i | 0 <= i < |trimmed| :: IsNameChar(trimmed[i])) then
        CleanedVerdict(false, NameBadChars, None)
      else CleanedVerdict(true, "", Some(trimmed))
  }

  /** A name made only of whitespace is reported as too short, not as missing. */
  lemma BlankNameIsTooShort(name: string)
    requires name != "" && forall i | 0 <= i < |name| :: IsJsSpace(name[i])
    ensures ValidateFullName(name) == CleanedVerdict(false, NameTooShort, None)
  {
    assert LeadingSpaces(name) == |name|;
  }

  // ---------------------------------------------------------------------
  // Role
  // ---------------------------------------------------------------------

  /** `validRoles` */
  const ValidRoles: seq<string> := ["Owner", "Admin", "Inventory Clerk", "Cashier"]

  /** frontend/js/validation.js, validateRole. */
  function ValidateRole(role: string): (r: Verdict)
    ensures r.valid <==> role == "Owner" || role == "Admin" || role == "Inventory Clerk" || role == "Cashier"
    ensures role == "" ==> r.message == RoleMissing
    ensures role != "" && !r.valid ==> r.message == RoleInvalid
    ensures r.valid ==> r.message == ""
  {
    if role == "" then Verdict(false, RoleMissing)
    else if role !in ValidRoles then Verdict(false, RoleInvalid)
    else Verdict(true, "")
  }

  // ---------------------------------------------------------------------
  // File upload
  // ---------------------------------------------------------------------

  /** The two properties of a browser `File` that the validator reads. */
  datatype FileInfo = FileInfo(mimeType: string, size: int)

  /** The default `maxSize`: 2 MiB. */
  const DefaultMaxSize: int := 2097152

  /** `allowedTypes` */
  const AllowedImageTypes: seq<string> := ["image/jpeg", "image/jpg", "image/png"]

  /** frontend/js/validation.js, validateFile with its default `maxSize`. */
  function ValidateFile(file: Option<FileInfo>): (r: Verdict)
    ensures r.valid <==>
      || file.None?
      || (file.value.mimeType in AllowedImageTypes && file.value.size <= DefaultMaxSize)
    ensures r.valid <==> r.message == ""
    ensures file.Some? && file.value.mimeType !in AllowedImageTypes ==>
      r.message == FileBadType
  {
    match file
    case None => Verdict(true, "")
    case Some(f) =>
      if f.mimeType !in AllowedImageTypes then Verdict(false, FileBadType)
      else if f.size > DefaultMaxSize then Verdict(false, FileTooLarge)
      else Verdict(true, "")
  }

  /** A file of exactly the limit passes; one byte more does not. */
  lemma FileSizeBoundary()
    ensures ValidateFile(Some(FileInfo("image/png", DefaultMaxSize))).valid
    ensures ValidateFile(Some(FileInfo("image/png", DefaultMaxSize + 1))) ==
      Verdict(false, FileTooLarge)
  {
  }

  // ---------------------------------------------------------------------
  // Date
  // ---------------------------------------------------------------------

  /**
   * frontend/js/validation.js, validateDate. Whether the parsed date lies
   * after the current instant depends on the clock and on `Date` parsing, so
   * it is an input here.
   */
  function ValidateDate(date: string, isInFuture: bool): (r: Verdict)
    ensures r.valid <==> date != "" && !isInFuture
    ensures r.valid <==> r.message == ""
  {
    if date == "" then Verdict(false, DateRequired)
    else if isInFuture then Verdict(false, DateInFuture)
    else Verdict(true, "")
  }
}
