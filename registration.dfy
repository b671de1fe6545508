/**
 * The user-registration page (frontend/js/form-handler.js): HTML escaping of
 * the values shown in the user table, the per-field checks and the check of
 * all fields before submit, the values actually sent, the submit request's
 * outcome, logout, and the search box that hides user rows.
 */
module Registration {
  import opened Text
  import opened Browser
  import FV = FormValidator

  // ---------------------------------------------------------------------
  // escapeHtml
  // ---------------------------------------------------------------------

  /** The characters escapeHtml leaves out of its output. */
  predicate IsMarkupChar(c: char) { c == '<' || c == '>' || c == '"' || c == '\'' }

  /** The character map of escapeHtml. */
  function EscapeChar(c: char): string
  {
    match c
    case '&' => "&amp;"
    case '<' => "&lt;"
    case '>' => "&gt;"
    case '"' => "&quot;"
    case '\'' => "&#039;"
    case _ => [c]
  }

  /** `text.replace(/[&<>"']/g, m => map[m])` */
  function EscapeHtml(s: string): (r: string)
    ensures |r| >= |s|
    ensures forall i | 0 <= i < |r| :: !IsMarkupChar(r[i])
  {
    if s == [] then [] else EscapeChar(s[0]) + EscapeHtml(s[1..])
  }

  /**
   * A reference decoder for the five entities escapeHtml produces; every
   * other character stands for itself.
   */
  function Unescape(s: string): string
    decreases |s|
  {
    if s == [] then []
    else if "&amp;" <= s then "&" + Unescape(s[5..])
    else if "&lt;" <= s then "<" + Unescape(s[4..])
    else if "&gt;" <= s then ">" + Unescape(s[4..])
    else if "&quot;" <= s then "\"" + Unescape(s[6..])
    else if "&#039;" <= s then "'" + Unescape(s[6..])
    else [s[0]] + Unescape(s[1..])
  }

  /** Decoding one escaped character in front of any text gives the character back. */
  lemma UnescapeEscapedChar(c: char, t: string)
    ensures Unescape(EscapeChar(c) + t) == [c] + Unescape(t)
  {
    var e := EscapeChar(c);
    var s := e + t;
    assert s[|e|..] == t;
    assert s[..|e|] == e;
    if c == '&' {
      assert "&amp;" <= s;
    } else if c == '<' {
      assert s[1] == 'l' && !("&amp;" <= s) && "&lt;" <= s;
    } else if c == '>' {
      assert s[1] == 'g' && !("&amp;" <= s) && !("&lt;" <= s) && "&gt;" <= s;
    } else if c == '"' {
      assert s[1] == 'q' && !("&amp;" <= s) && !("&lt;" <= s) && !("&gt;" <= s) && "&quot;" <= s;
    } else if c == '\'' {
      assert s[1] == '#' && !("&amp;" <= s) && !("&lt;" <= s) && !("&gt;" <= s) && !("&quot;" <= s);
      assert "&#039;" <= s;
    } else {
      assert s[0] == c;
    }
  }

  /** Escaping loses nothing: decoding the escaped text gives the original back. */
  lemma {:induction false} EscapeRoundTrip(s: string)
    ensures Unescape(EscapeHtml(s)) == s
  {
    if s != [] {
      EscapeRoundTrip(s[1..]);
      UnescapeEscapedChar(s[0], EscapeHtml(s[1..]));
    }
  }

  /** Different texts are shown differently. */
  lemma EscapeInjective(a: string, b: string)
    requires EscapeHtml(a) == EscapeHtml(b)
    ensures a == b
  {
    EscapeRoundTrip(a);
    EscapeRoundTrip(b);
  }

  /** Text without any of the five special characters is shown as it is. */
  lemma {:induction false} EscapeKeepsPlainText(s: string)
    requires forall i | 0 <= i < |s| :: !IsMarkupChar(s[i]) && s[i] != '&'
    ensures EscapeHtml(s) == s
  {
    if s != [] {
      EscapeKeepsPlainText(s[1..]);
      assert s == [s[0]] + s[1..];
    }
  }

  /** Escaping twice is not escaping once: the `&` of an entity is escaped again. */
  lemma EscapeNotIdempotent()
    ensures EscapeHtml("&") == "&amp;"
    ensures EscapeHtml(EscapeHtml("&")) == "&amp;amp;"
  {
    var once := "&amp;";
    assert EscapeHtml("&") == EscapeChar('&') + EscapeHtml([]);
    assert once[1..] == "amp;" && once[1..][1..] == "mp;" && once[1..][1..][1..] == "p;";
    assert once[1..][1..][1..][1..] == ";";
  }

  // ---------------------------------------------------------------------
  // Fields and their checks
  // ---------------------------------------------------------------------

  /** The keys of the page's `fields` object. */
  datatype FieldName =
    | FullName | Email | Phone | EmploymentDate | Username | Role
    | Password | ConfirmPassword | Status | Photo

  /** The values the form's inputs hold. */
  datatype FormValues = FormValues(
    fullName: string, email: string, phone: string, employmentDate: string,
    username: string, role: string, password: string, confirmPassword: string,
    status: string, photo: Option<FV.FileInfo>)

  const ConfirmMissing: string := "Please confirm your password"
  const ConfirmMismatch: string := "Passwords do not match"
  const FixAllMessage: string := "Please fix all errors before submitting"
  const RegisteredMessage: string := "User registered successfully!"
  const RegisterFallback: string := "Registration failed. Please try again."
  const RegisterNetworkMessage: string := "Network error. Please check your connection."

  /** The `confirmPassword` case of validateField. */
  function ValidateConfirm(password: string, confirm: string): (r: FV.Verdict)
    ensures r.valid <==> confirm != "" && confirm == password
    ensures confirm == "" ==> r.message == ConfirmMissing
    ensures confirm != "" && confirm != password ==> r.message == ConfirmMismatch
    ensures r.valid ==> r.message == ""
  {
    if confirm == "" then FV.Verdict(false, ConfirmMissing)
    else if password != confirm then FV.Verdict(false, ConfirmMismatch)
    else FV.Verdict(true, "")
  }

  /**
   * The switch of validateField: the verdict of the field's validator, or
   * none for a key without a case (`status`, `photo`). `dateInFuture` is the
   * comparison of the entered date with today's.
   */
  function FieldVerdict(name: FieldName, v: FormValues, dateInFuture: bool): Option<FV.Verdict>
  {
    match name
    case FullName =>
      var r := FV.ValidateFullName(v.fullName); Some(FV.Verdict(r.valid, r.message))
    case Email => Some(FV.ValidateEmail(v.email))
    case Phone =>
      var r := FV.ValidatePhone(v.phone); Some(FV.Verdict(r.valid, r.message))
    case EmploymentDate => Some(FV.ValidateDate(v.employmentDate, dateInFuture))
    case Username => Some(FV.ValidateUsername(v.username))
    case Role => Some(FV.ValidateRole(v.role))
    case Password =>
      var r := FV.ValidatePassword(v.password); Some(FV.Verdict(r.valid, r.message))
    case ConfirmPassword => Some(ValidateConfirm(v.password, v.confirmPassword))
    case _ => None
  }

  /**
   * The `confirmPassword` case reads `fields.password.value` without looking
   * for the element first: with a confirmation input and no password input
   * it throws a TypeError.
   */
  predicate ConfirmThrows(present: set<FieldName>)
  {
    ConfirmPassword in present && Password !in present
  }

  /** How a call ends: it returns a boolean, or it throws a TypeError. */
  datatype CheckResult = Returned(passed: bool) | ThrewTypeError

  /**
   * What validateField does: false without an element, the TypeError of the
   * confirmation case, true for a key without a case, and otherwise the
   * verdict of the field's check.
   */
  function CheckField(name: FieldName, present: set<FieldName>, v: FormValues, dateInFuture: bool): (r: CheckResult)
    ensures r == ThrewTypeError <==> name == ConfirmPassword && ConfirmThrows(present)
    ensures name !in present ==> r == Returned(false)
  {
    if name !in present then Returned(false)
    else if name == ConfirmPassword && Password !in present then ThrewTypeError
    else
      var verdict := FieldVerdict(name, v, dateInFuture);
      if verdict.None? then Returned(true) else Returned(verdict.value.valid)
  }

  /** validateField returns true. */
  predicate FieldPasses(name: FieldName, present: set<FieldName>, v: FormValues, dateInFuture: bool)
  {
    CheckField(name, present, v, dateInFuture) == Returned(true)
  }

  /** validateField returns false for a field whose element the page lacks. */
  lemma MissingFieldFails(name: FieldName, present: set<FieldName>, v: FormValues, dateInFuture: bool)
    requires name !in present
    ensures CheckField(name, present, v, dateInFuture) == Returned(false)
    ensures !FieldPasses(name, present, v, dateInFuture)
  {
  }

  /** The keys without a check pass whenever their element is there. */
  lemma UncheckedFieldsPass(present: set<FieldName>, v: FormValues, dateInFuture: bool)
    ensures FieldPasses(Status, present, v, dateInFuture) <==> Status in present
    ensures FieldPasses(Photo, present, v, dateInFuture) <==> Photo in present
  {
  }

  /**
   * The verdict validateField shows on the page: that of the field's check,
   * and none when the confirmation case throws before anything is shown.
   */
  function ShownVerdict(name: FieldName, present: set<FieldName>, v: FormValues, dateInFuture: bool): (r: Option<FV.Verdict>)
    ensures name == ConfirmPassword && ConfirmThrows(present) ==> r == None
    ensures !(name == ConfirmPassword && ConfirmThrows(present)) ==> r == FieldVerdict(name, v, dateInFuture)
  {
    if name == ConfirmPassword && ConfirmThrows(present) then None else FieldVerdict(name, v, dateInFuture)
  }

  /** The marks after validateField, given the verdict it shows: an element with a check shows it. */
  function MarkField(marks: map<FieldName, Mark>, name: FieldName, present: set<FieldName>,
                     verdict: Option<FV.Verdict>): map<FieldName, Mark>
  {
    if name in present && verdict.Some? then marks[name := MarkFor(verdict.value.valid, verdict.value.message)]
    else marks
  }

  /** What validateAllFields returns: all eight checks pass. */
  predicate AllFieldsPass(present: set<FieldName>, v: FormValues, dateInFuture: bool)
  {
    && FieldPasses(FullName, present, v, dateInFuture)
    && FieldPasses(Email, present, v, dateInFuture)
    && FieldPasses(Phone, present, v, dateInFuture)
    && FieldPasses(EmploymentDate, present, v, dateInFuture)
    && FieldPasses(Username, present, v, dateInFuture)
    && FieldPasses(Role, present, v, dateInFuture)
    && FieldPasses(Password, present, v, dateInFuture)
    && FieldPasses(ConfirmPassword, present, v, dateInFuture)
  }

  /** The marks after the eight checks of validateAllFields, in order, for any verdicts. */
  function MarkChecked(marks: map<FieldName, Mark>, present: set<FieldName>,
                       verdictOf: FieldName -> Option<FV.Verdict>): map<FieldName, Mark>
  {
    var m1 := MarkField(marks, FullName, present, verdictOf(FullName));
    var m2 := MarkField(m1, Email, present, verdictOf(Email));
    var m3 := MarkField(m2, Phone, present, verdictOf(Phone));
    var m4 := MarkField(m3, EmploymentDate, present, verdictOf(EmploymentDate));
    var m5 := MarkField(m4, Username, present, verdictOf(Username));
    var m6 := MarkField(m5, Role, present, verdictOf(Role));
    var m7 := MarkField(m6, Password, present, verdictOf(Password));
    MarkField(m7, ConfirmPassword, present, verdictOf(ConfirmPassword))
  }

  /** The marks after validateAllFields: its eight calls of validateField, in order. */
  function MarkAllFields(marks: map<FieldName, Mark>, present: set<FieldName>,
                         v: FormValues, dateInFuture: bool): map<FieldName, Mark>
  {
    var m1 := MarkField(marks, FullName, present, ShownVerdict(FullName, present, v, dateInFuture));
    var m2 := MarkField(m1, Email, present, ShownVerdict(Email, present, v, dateInFuture));
    var m3 := MarkField(m2, Phone, present, ShownVerdict(Phone, present, v, dateInFuture));
    var m4 := MarkField(m3, EmploymentDate, present, ShownVerdict(EmploymentDate, present, v, dateInFuture));
    var m5 := MarkField(m4, Username, present, ShownVerdict(Username, present, v, dateInFuture));
    var m6 := MarkField(m5, Role, present, ShownVerdict(Role, present, v, dateInFuture));
    var m7 := MarkField(m6, Password, present, ShownVerdict(Password, present, v, dateInFuture));
    MarkField(m7, ConfirmPassword, present, ShownVerdict(ConfirmPassword, present, v, dateInFuture))
  }

  /** validateAllFields marks as the eight checks do for the verdicts validateField shows. */
  lemma MarkAllFieldsIsMarkChecked(marks: map<FieldName, Mark>, present: set<FieldName>, v: FormValues,
                                   dateInFuture: bool, verdictOf: FieldName -> Option<FV.Verdict>)
    requires forall n :: verdictOf(n) == ShownVerdict(n, present, v, dateInFuture)
    ensures MarkAllFields(marks, present, v, dateInFuture) == MarkChecked(marks, present, verdictOf)
  {
  }

  /** The eight fields validateAllFields checks. */
  predicate IsCheckedField(name: FieldName)
  {
    || name == FullName || name == Email || name == Phone || name == EmploymentDate
    || name == Username || name == Role || name == Password || name == ConfirmPassword
  }

  /** While the confirmation check throws, the eight checks never all pass. */
  lemma ThrowFailsAll(present: set<FieldName>, v: FormValues, dateInFuture: bool)
    requires ConfirmThrows(present)
    ensures !AllFieldsPass(present, v, dateInFuture)
  {
    assert CheckField(ConfirmPassword, present, v, dateInFuture) == ThrewTypeError;
  }

  /** validateAllFields returns true exactly when each of the eight calls returned true. */
  lemma AllFieldsPassByCalls(present: set<FieldName>, v: FormValues, dateInFuture: bool)
    ensures AllFieldsPass(present, v, dateInFuture) <==>
      && CheckField(FullName, present, v, dateInFuture) == Returned(true)
      && CheckField(Email, present, v, dateInFuture) == Returned(true)
      && CheckField(Phone, present, v, dateInFuture) == Returned(true)
      && CheckField(EmploymentDate, present, v, dateInFuture) == Returned(true)
      && CheckField(Username, present, v, dateInFuture) == Returned(true)
      && CheckField(Role, present, v, dateInFuture) == Returned(true)
      && CheckField(Password, present, v, dateInFuture) == Returned(true)
      && CheckField(ConfirmPassword, present, v, dateInFuture) == Returned(true)
  {
  }

  /** Each of the eight checked fields has a check. */
  lemma CheckedFieldsHaveVerdicts(name: FieldName, v: FormValues, dateInFuture: bool)
    requires IsCheckedField(name)
    ensures FieldVerdict(name, v, dateInFuture).Some?
  {
  }

  /** Marking one field leaves every other field's mark alone. */
  lemma MarkFieldKeepsOthers(marks: map<FieldName, Mark>, n: FieldName, present: set<FieldName>,
                             verdict: Option<FV.Verdict>, name: FieldName)
    requires name != n
    ensures name in MarkField(marks, n, present, verdict) <==> name in marks
    ensures name in marks ==> MarkField(marks, n, present, verdict)[name] == marks[name]
  {
  }

  /** The fields validateAllFields checks, in its order. */
  const CheckedFields: seq<FieldName> :=
    [FullName, Email, Phone, EmploymentDate, Username, Role, Password, ConfirmPassword]

  /** Running the checks of `names` in order, each marking its own field. */
  function MarkEach(marks: map<FieldName, Mark>, names: seq<FieldName>, present: set<FieldName>,
                    verdictOf: FieldName -> Option<FV.Verdict>): map<FieldName, Mark>
    decreases |names|
  {
    if names == [] then marks
    else MarkEach(MarkField(marks, names[0], present, verdictOf(names[0])), names[1..], present, verdictOf)
  }

  /** The eight calls of validateAllFields are the checks of CheckedFields in order. */
  lemma MarkCheckedIsMarkEach(marks: map<FieldName, Mark>, present: set<FieldName>,
                              verdictOf: FieldName -> Option<FV.Verdict>)
    ensures MarkChecked(marks, present, verdictOf) == MarkEach(marks, CheckedFields, present, verdictOf)
  {
    var c := CheckedFields;
    assert c[1..] == [Email, Phone, EmploymentDate, Username, Role, Password, ConfirmPassword];
    assert c[1..][1..] == [Phone, EmploymentDate, Username, Role, Password, ConfirmPassword];
    assert c[1..][1..][1..] == [EmploymentDate, Username, Role, Password, ConfirmPassword];
    assert c[1..][1..][1..][1..] == [Username, Role, Password, ConfirmPassword];
    assert c[1..][1..][1..][1..][1..] == [Role, Password, ConfirmPassword];
    assert c[1..][1..][1..][1..][1..][1..] == [Password, ConfirmPassword];
    assert c[1..][1..][1..][1..][1..][1..][1..] == [ConfirmPassword];
  }

  /**
   * Running checks over distinct fields: every listed field that exists and
   * has a check shows its own verdict, whatever the others found, and every
   * other mark is as it was.
   */
  lemma {:induction false} MarkEachMarksEvery(marks: map<FieldName, Mark>, names: seq<FieldName>,
                                              present: set<FieldName>,
                                              verdictOf: FieldName -> Option<FV.Verdict>, name: FieldName)
    requires forall i, j | 0 <= i < j < |names| :: names[i] != names[j]
    ensures name in names && name in present && verdictOf(name).Some? ==>
      name in MarkEach(marks, names, present, verdictOf) &&
      MarkEach(marks, names, present, verdictOf)[name] == MarkFor(verdictOf(name).value.valid, verdictOf(name).value.message)
    ensures !(name in names && name in present && verdictOf(name).Some?) ==>
      (name in MarkEach(marks, names, present, verdictOf) <==> name in marks) &&
      (name in marks ==> MarkEach(marks, names, present, verdictOf)[name] == marks[name])
    decreases |names|
  {
    if names != [] {
      var next := MarkField(marks, names[0], present, verdictOf(names[0]));
      MarkEachMarksEvery(next, names[1..], present, verdictOf, name);
      if names[0] != name {
        MarkFieldKeepsOthers(marks, names[0], present, verdictOf(names[0]), name);
        assert name in names <==> name in names[1..];
      } else {
        assert name !in names[1..] by {
          forall k | 0 <= k < |names[1..]| ensures names[1..][k] != name {
            assert names[1..][k] == names[k + 1];
          }
        }
      }
    }
  }

  /**
   * No check stops the others: after validateAllFields every checked field
   * that exists shows its own verdict, and every other mark is as it was.
   */
  lemma EveryCheckedFieldIsMarked(marks: map<FieldName, Mark>, present: set<FieldName>,
                                  verdictOf: FieldName -> Option<FV.Verdict>, name: FieldName)
    ensures IsCheckedField(name) && name in present && verdictOf(name).Some? ==>
      name in MarkChecked(marks, present, verdictOf) &&
      MarkChecked(marks, present, verdictOf)[name] == MarkFor(verdictOf(name).value.valid, verdictOf(name).value.message)
    ensures !(IsCheckedField(name) && name in present && verdictOf(name).Some?) ==>
      (name in MarkChecked(marks, present, verdictOf) <==> name in marks) &&
      (name in marks ==> MarkChecked(marks, present, verdictOf)[name] == marks[name])
  {
    MarkCheckedIsMarkEach(marks, present, verdictOf);
    CheckedFieldsListed(name);
    MarkEachMarksEvery(marks, CheckedFields, present, verdictOf, name);
  }

  /**
   * After validateAllFields every checked field that exists shows its own
   * check's verdict, except a confirmation whose check threw; every other
   * mark is as it was.
   */
  lemma AllFieldsMarked(marks: map<FieldName, Mark>, present: set<FieldName>, v: FormValues,
                        dateInFuture: bool, name: FieldName)
    ensures IsCheckedField(name) && name in present && !(name == ConfirmPassword && ConfirmThrows(present)) ==>
      && FieldVerdict(name, v, dateInFuture).Some?
      && name in MarkAllFields(marks, present, v, dateInFuture)
      && MarkAllFields(marks, present, v, dateInFuture)[name] ==
         MarkFor(FieldVerdict(name, v, dateInFuture).value.valid, FieldVerdict(name, v, dateInFuture).value.message)
    ensures !(IsCheckedField(name) && name in present && !(name == ConfirmPassword && ConfirmThrows(present))) ==>
      && (name in MarkAllFields(marks, present, v, dateInFuture) <==> name in marks)
      && (name in marks ==> MarkAllFields(marks, present, v, dateInFuture)[name] == marks[name])
  {
    var verdictOf := (n: FieldName) => ShownVerdict(n, present, v, dateInFuture);
    MarkAllFieldsIsMarkChecked(marks, present, v, dateInFuture, verdictOf);
    EveryCheckedFieldIsMarked(marks, present, verdictOf, name);
    if IsCheckedField(name) {
      CheckedFieldsHaveVerdicts(name, v, dateInFuture);
    }
  }

  /** CheckedFields lists the checked fields, each once. */
  lemma CheckedFieldsListed(name: FieldName)
    ensures IsCheckedField(name) <==> name in CheckedFields
    ensures forall i, j | 0 <= i < j < |CheckedFields| :: CheckedFields[i] != CheckedFields[j]
  {
  }

  /** Every checked field is there. */
  predicate CheckedFieldsPresent(present: set<FieldName>)
  {
    && FullName in present && Email in present && Phone in present && EmploymentDate in present
    && Username in present && Role in present && Password in present && ConfirmPassword in present
  }

  /** The four personal fields pass exactly when their element is there and their validator accepts. */
  lemma PersonalFieldsPassMeans(present: set<FieldName>, v: FormValues, dateInFuture: bool)
    ensures FieldPasses(FullName, present, v, dateInFuture) <==> FullName in present && FV.ValidateFullName(v.fullName).valid
    ensures FieldPasses(Email, present, v, dateInFuture) <==> Email in present && FV.IsSimpleEmail(v.email)
    ensures FieldPasses(Phone, present, v, dateInFuture) <==> Phone in present && FV.ValidatePhone(v.phone).valid
    ensures FieldPasses(EmploymentDate, present, v, dateInFuture) <==>
      EmploymentDate in present && FV.ValidateDate(v.employmentDate, dateInFuture).valid
  {
  }

  /** The four account fields pass exactly when their element is there and their check accepts. */
  lemma AccountFieldsPassMeans(present: set<FieldName>, v: FormValues, dateInFuture: bool)
    ensures FieldPasses(Username, present, v, dateInFuture) <==> Username in present && FV.ValidateUsername(v.username).valid
    ensures FieldPasses(Role, present, v, dateInFuture) <==> Role in present && FV.ValidateRole(v.role).valid
    ensures FieldPasses(Password, present, v, dateInFuture) <==> Password in present && FV.ValidatePassword(v.password).valid
    ensures FieldPasses(ConfirmPassword, present, v, dateInFuture) <==>
      ConfirmPassword in present && Password in present && v.confirmPassword != "" && v.confirmPassword == v.password
  {
  }

  /** The eight checks pass exactly when every validator accepts and the confirmation matches. */
  lemma AllFieldsPassMeans(present: set<FieldName>, v: FormValues, dateInFuture: bool)
    ensures AllFieldsPass(present, v, dateInFuture) <==>
      && CheckedFieldsPresent(present)
      && FV.ValidateFullName(v.fullName).valid
      && FV.IsSimpleEmail(v.email)
      && FV.ValidatePhone(v.phone).valid
      && FV.ValidateDate(v.employmentDate, dateInFuture).valid
      && FV.ValidateUsername(v.username).valid
      && FV.ValidateRole(v.role).valid
      && FV.ValidatePassword(v.password).valid
      && v.confirmPassword == v.password
  {
    PersonalFieldsPassMeans(present, v, dateInFuture);
    AccountFieldsPassMeans(present, v, dateInFuture);
    if FV.ValidatePassword(v.password).valid {
      assert v.password != "";
    }
  }

  // ---------------------------------------------------------------------
  // What is submitted
  // ---------------------------------------------------------------------

  /** The form data handleSubmit sends. */
  datatype Payload = Payload(
    fullName: string, email: string, phone: string, employmentDate: string,
    username: string, role: string, password: string, status: string,
    photo: Option<FV.FileInfo>)

  /**
   * The values as sent: full name, email and username trimmed, whitespace
   * and dashes removed from the phone, everything else as entered.
   */
  function Normalize(v: FormValues): Payload
  {
    Payload(Trim(v.fullName), Trim(v.email), FV.CleanPhone(v.phone), v.employmentDate,
            Trim(v.username), v.role, v.password, v.status, v.photo)
  }

  /**
   * Once every check passes, the submitted full name and phone are the
   * validators' cleaned values, the username and email are sent exactly as
   * checked, and the password is the one confirmed.
   */
  lemma SubmittedValuesAreCleaned(present: set<FieldName>, v: FormValues, dateInFuture: bool)
    requires AllFieldsPass(present, v, dateInFuture)
    ensures FV.ValidateFullName(v.fullName).cleaned == Some(Normalize(v).fullName)
    ensures FV.ValidatePhone(v.phone).cleaned == Some(Normalize(v).phone)
    ensures Normalize(v).username == v.username
    ensures Normalize(v).email == v.email
    ensures Normalize(v).password == v.password == v.confirmPassword
  {
    AllFieldsPassMeans(present, v, dateInFuture);
    ValidUsernameIsUnpadded(v.username);
    SimpleEmailIsUnpadded(v.email);
  }

  /** A username the rules accept has no surrounding whitespace. */
  lemma ValidUsernameIsUnpadded(u: string)
    requires FV.ValidateUsername(u).valid
    ensures Trim(u) == u
  {
    assert IsWordChar(u[0]) && IsWordChar(u[|u| - 1]);
    TrimKeepsUnpadded(u);
  }

  /** An email the pattern accepts has no whitespace at all, so trimming keeps it. */
  lemma SimpleEmailIsUnpadded(e: string)
    requires FV.IsSimpleEmail(e)
    ensures Trim(e) == e
  {
    TrimKeepsUnpadded(e);
  }

  /** The submitted phone number passes the phone check again: cleaning is idempotent. */
  lemma SubmittedPhoneIsValid(present: set<FieldName>, v: FormValues, dateInFuture: bool)
    requires AllFieldsPass(present, v, dateInFuture)
    ensures FV.ValidatePhone(Normalize(v).phone).valid
  {
    AllFieldsPassMeans(present, v, dateInFuture);
    var p := FV.CleanPhone(v.phone);
    assert FV.IsMobileNumber(p);
    forall i | 0 <= i < |p| ensures !FV.IsPhoneSeparator(p[i]) {
      if i >= 2 { assert IsAsciiDigit(p[i]); }
    }
    RemoveWhereNone(p, FV.IsPhoneSeparator);
  }

  // ---------------------------------------------------------------------
  // User search
  // ---------------------------------------------------------------------

  /** A user row stays visible for a search term: its text contains the term, ignoring case. */
  predicate RowMatches(rowText: string, term: string)
  {
    Contains(ToLower(rowText), ToLower(term))
  }

  /** An empty search shows every row. */
  lemma EmptySearchShowsAll(rowText: string)
    ensures RowMatches(rowText, "")
  {
    ContainsEmpty(ToLower(rowText));
  }

  /** A row containing the term as typed is shown. */
  lemma RowWithTermIsShown(rowText: string, term: string)
    requires Contains(rowText, term)
    ensures RowMatches(rowText, term)
  {
    ContainsLower(rowText, term);
  }

  /** The search ignores case: a term and its lower-case form show the same rows. */
  lemma SearchIgnoresCase(rowText: string, term: string)
    ensures RowMatches(rowText, term) <==> RowMatches(rowText, ToLower(term))
  {
    ToLowerIdempotent(term);
  }

  /**
   * The search box's input handler: each row of the user table is shown or
   * hidden by whether its text contains the term.
   */
  method SearchUsers(rowText: seq<string>, shown: array<bool>, term: string)
    requires shown.Length == |rowText|
    modifies shown
    ensures forall i | 0 <= i < shown.Length :: shown[i] == RowMatches(rowText[i], term)
  {
    var searchTerm := ToLower(term);
    for i := 0 to shown.Length
      invariant forall j | 0 <= j < i :: shown[j] == RowMatches(rowText[j], term)
    {
      shown[i] := Contains(ToLower(rowText[i]), searchTerm);
    }
  }

  // ---------------------------------------------------------------------
  // The page
  // ---------------------------------------------------------------------

  /** How the registration request ends (see LoginOutcome for the cases). */
  datatype RegisterOutcome = Registered | Refused(message: string) | NetworkFailure

  /**
   * The page reports how the registration request ended: the alert for the
   * outcome, and the form reset scheduled on success only.
   */
  predicate ReportsOutcome(outcome: RegisterOutcome, alert: Option<Alert>, resetPending: bool, wasPending: bool)
  {
    match outcome
    case Registered => alert == Some(Alert(RegisteredMessage, SuccessAlert)) && resetPending
    case Refused(message) =>
      alert == Some(Alert(MessageOr(message, RegisterFallback), ErrorAlert)) && resetPending == wasPending
    case NetworkFailure => alert == Some(Alert(RegisterNetworkMessage, ErrorAlert)) && resetPending == wasPending
  }

  /** How the logout request ends: it resolves (any status) or it throws. */
  datatype LogoutOutcome = Resolved | Threw

  /** What setFormLoading toggles: the submit and reset buttons and the spinner. */
  datatype FormControls = FormControls(submitDisabled: bool, resetDisabled: bool, spinnerShown: bool)

  /**
   * The registration page. The model fixes which field elements it has and
   * what its inputs hold for the life of the page object: `values` are what
   * the inputs hold when the handlers run. The form reset that the reset
   * button and a successful registration trigger is not modelled.
   */
  class RegistrationPage {
    const present: set<FieldName>
    const values: FormValues
    var marks: map<FieldName, Mark>
    var alert: Option<Alert>
    var controls: FormControls
    var resetPending: bool
    var local: Storage
    var session: Storage
    var location: string

    /** The page as it opens: `present` are the field elements the page has. */
    constructor (present: set<FieldName>, values: FormValues, local: Storage, session: Storage)
      ensures this.present == present && this.values == values
      ensures this.local == local && this.session == session
      ensures marks == map[] && alert == None && !resetPending
      ensures controls == FormControls(false, false, false)
      ensures location == ""
    {
      this.present := present;
      this.values := values;
      this.local := local;
      this.session := session;
      marks := map[];
      alert := None;
      controls := FormControls(false, false, false);
      resetPending := false;
      location := "";
    }

    /**
     * validateField: runs the field's check, marks the field and says whether
     * it passed, or throws in the confirmation case without a password input.
     */
    method ValidateField(name: FieldName, dateInFuture: bool) returns (r: CheckResult)
      modifies this`marks
      ensures r == CheckField(name, present, values, dateInFuture)
      ensures marks == MarkField(old(marks), name, present, ShownVerdict(name, present, values, dateInFuture))
    {
      if name !in present {
        return Returned(false);
      }
      if name == ConfirmPassword && Password !in present {
        return ThrewTypeError;
      }
      var verdict := FieldVerdict(name, values, dateInFuture);
      if verdict.None? {
        return Returned(true);
      }
      marks := marks[name := MarkFor(verdict.value.valid, verdict.value.message)];
      r := Returned(verdict.value.valid);
    }

    /**
     * validateAllFields: all eight checks run, whatever the earlier ones
     * return; the confirmation check, the last, may throw, and then so does
     * validateAllFields.
     */
    method ValidateAllFields(dateInFuture: bool) returns (r: CheckResult)
      modifies this`marks
      ensures r == ThrewTypeError <==> ConfirmThrows(present)
      ensures r == Returned(true) <==> AllFieldsPass(present, values, dateInFuture)
      ensures marks == MarkAllFields(old(marks), present, values, dateInFuture)
    {
      var a := ValidateField(FullName, dateInFuture);
      var b := ValidateField(Email, dateInFuture);
      var c := ValidateField(Phone, dateInFuture);
      var d := ValidateField(EmploymentDate, dateInFuture);
      var e := ValidateField(Username, dateInFuture);
      var f := ValidateField(Role, dateInFuture);
      var g := ValidateField(Password, dateInFuture);
      var h := ValidateField(ConfirmPassword, dateInFuture);
      if h == ThrewTypeError {
        ThrowFailsAll(present, values, dateInFuture);
        return ThrewTypeError;
      }
      AllFieldsPassByCalls(present, values, dateInFuture);
      r := Returned(a.passed && b.passed && c.passed && d.passed && e.passed && f.passed && g.passed && h.passed);
    }

    /** setFormLoading */
    method SetFormLoading(isLoading: bool)
      modifies this`controls
      ensures controls == FormControls(isLoading, isLoading, isLoading)
    {
      controls := FormControls(isLoading, isLoading, isLoading);
    }

    /**
     * submitUserRegistration: the alert reports the outcome, a success
     * schedules the form reset, and the form is enabled again in every case.
     */
    method SubmitRegistration(outcome: RegisterOutcome)
      modifies this`controls, this`alert, this`resetPending
      ensures controls == FormControls(false, false, false)
      ensures ReportsOutcome(outcome, alert, resetPending, old(resetPending))
    {
      SetFormLoading(true);
      alert := None;
      match outcome {
        case Registered =>
          alert := Some(Alert(RegisteredMessage, SuccessAlert));
          resetPending := true;
        case Refused(message) =>
          alert := Some(Alert(MessageOr(message, RegisterFallback), ErrorAlert));
        case NetworkFailure =>
          alert := Some(Alert(RegisterNetworkMessage, ErrorAlert));
      }
      SetFormLoading(false);
    }

    /**
     * handleSubmit: nothing is sent unless all eight checks pass; otherwise
     * the normalised values are sent and the alert reports the outcome. When
     * the confirmation check throws, the handler stops there: no alert and
     * nothing else changes.
     */
    method HandleSubmit(dateInFuture: bool, outcome: RegisterOutcome) returns (sent: Option<Payload>)
      modifies this`marks, this`controls, this`alert, this`resetPending
      ensures marks == MarkAllFields(old(marks), present, values, dateInFuture)
      ensures sent.Some? <==> AllFieldsPass(present, values, dateInFuture)
      ensures sent.Some? ==> sent.value == Normalize(values)
      ensures sent.None? ==>
        && alert == (if ConfirmThrows(present) then old(alert) else Some(Alert(FixAllMessage, ErrorAlert)))
        && controls == old(controls) && resetPending == old(resetPending)
      ensures sent.Some? ==> controls == FormControls(false, false, false)
      ensures sent.Some? ==> ReportsOutcome(outcome, alert, resetPending, old(resetPending))
    {
      var checked := ValidateAllFields(dateInFuture);
      sent := SendIfValid(checked, outcome);
    }

    /**
     * The rest of handleSubmit, given how validateAllFields ended: stop
     * on a throw, stop with an alert on false, or send.
     */
    method SendIfValid(checked: CheckResult, outcome: RegisterOutcome) returns (sent: Option<Payload>)
      modifies this`controls, this`alert, this`resetPending
      ensures sent.Some? <==> checked == Returned(true)
      ensures sent.Some? ==> sent.value == Normalize(values)
      ensures sent.None? ==>
        && alert == (if checked == ThrewTypeError then old(alert) else Some(Alert(FixAllMessage, ErrorAlert)))
        && controls == old(controls) && resetPending == old(resetPending)
      ensures sent.Some? ==> controls == FormControls(false, false, false)
      ensures sent.Some? ==> ReportsOutcome(outcome, alert, resetPending, old(resetPending))
    {
      if checked == ThrewTypeError {
        return None;
      }
      if !checked.passed {
        alert := Some(Alert(FixAllMessage, ErrorAlert));
        return None;
      }
      var payload := Normalize(values);
      SubmitRegistration(outcome);
      sent := Some(payload);
    }

    /**
     * handleLogout: after confirmation the page always goes to the login
     * page, but the stored token is removed from both areas only when the
     * logout request resolved.
     */
    method HandleLogout(confirmed: bool, outcome: LogoutOutcome)
      modifies this`local, this`session, this`location
      ensures !confirmed ==> local == old(local) && session == old(session) && location == old(location)
      ensures confirmed ==> location == Browser.LoginPage
      ensures confirmed && outcome == Resolved ==>
        local == old(local) - {SessionKey} && session == old(session) - {SessionKey}
      ensures confirmed && outcome == Threw ==> local == old(local) && session == old(session)
    {
      if !confirmed {
        return;
      }
      if outcome == Resolved {
        local := local - {SessionKey};
        session := session - {SessionKey};
      }
      location := Browser.LoginPage;
    }
  }
}
