# Hardware-store staff portal: validation, inventory, login and lockout rules

This project models the decision logic of a small hardware-store web
application and proves properties of it in Dafny. The modelled parts are:

- the browser-side field validators (`FormValidator` in
  `frontend/js/validation.js`) and the server-side validators that repeat
  them (`Validator` in `backend/validation.py`), with agreement and
  disagreement lemmas between the two;
- the inventory page (`frontend/js/inventory.js`): stock badges, the search
  and status filter, and the add / edit / delete handlers over the product
  list, as a class whose methods change the list in place;
- the registration page (`frontend/js/form-handler.js`): `escapeHtml`, the
  per-field check and the check of all fields, the values sent on submit,
  the submit outcome, logout, and the user-search box;
- the login page (`frontend/js/login-handler.js`): the submit gate, where
  the session token is stored, the role redirect, the loading state and the
  stored-session check, as a class over the two Web Storage areas;
- the account-lockout rule of `AuthManager.check_account_lockout`
  (`backend/auth.py`).

Layout: `text.dfy` (module `Text`: character classes, JavaScript `trim`,
character deletion, ASCII lower-casing, substring search), `browser.dfy`
(`Browser`: storage areas, alerts, field marks, JavaScript `||`),
`form_validator.dfy`, `server_validator.dfy`, `inventory.dfy`,
`registration.dfy`, `login.dfy`, `lockout.dfy`.

Requests (`fetch`), timers, the clock and the user's confirmation dialogs
are inputs of the model. A request is a datatype of its possible endings
(`LoginOutcome`, `RegisterOutcome`, `SessionCheck`, `LogoutOutcome`), the
1.5 s redirect and the 2 s form reset are pending flags, and the date
check's comparison with today is a boolean parameter. The lockout query's
result is an input too (`QueryResult`); times are integers in microseconds.

Two behaviours of the code are worth stating plainly:

- Logout clears the stored token from both areas only when the logout
  request resolves. When it throws, the page goes to the login page and
  leaves storage as it was (`frontend/js/form-handler.js:465-487`).
- On the login page, a stored session that the server does not confirm, or
  whose check fails, is left in storage and the page stays where it is
  (`frontend/js/login-handler.js:178-197`).

## Model

| member | source | states |
|---|---|---|
| Text.Trim | frontend/js/validation.js:122 | `trim()` returns a contiguous slice of its input that neither starts nor ends with whitespace, and everything cut away is ECMAScript whitespace |
| Text.TrimKeepsUnpadded | frontend/js/form-handler.js:237-241 | a value without whitespace at either end is sent unchanged by `trim()` |
| Text.TrimIdempotent | frontend/js/validation.js:122 | trimming an already trimmed name changes nothing |
| Text.RemoveWhere | frontend/js/validation.js:104 | `replace(/[\s-]/g, '')` leaves none of the deleted characters and never lengthens the string |
| Text.RemoveWhereCounts | frontend/js/validation.js:104 | every kept character occurs exactly as often as in the input; deleted characters occur zero times |
| Text.RemoveWhereNone | frontend/js/validation.js:104 | deleting characters that do not occur returns the input |
| Text.RemoveWhereAppend | frontend/js/validation.js:104 | deletion distributes over concatenation |
| Text.IsJsSpace | frontend/js/validation.js:86 | the characters ECMAScript's `\s` matches and `trim()` strips: the WhiteSpace and LineTerminator code points |
| Text.ToLower | frontend/js/inventory.js:19 | lower-casing keeps the length and maps each character on its own, ASCII capitals to small letters |
| Text.Contains | frontend/js/inventory.js:22-23 | `includes`: the term occurs at some position of the text |
| Text.ToLowerIdempotent | frontend/js/inventory.js:19 | lower-casing twice equals lower-casing once |
| Text.ContainsEmpty | frontend/js/inventory.js:22-23 | `includes('')` holds of every string |
| Text.ContainsLower | frontend/js/inventory.js:22-23 | an occurrence of the term stays an occurrence after both sides are lower-cased |
| Browser.MarkFor | frontend/js/form-handler.js:196-202 | a checked field is always marked; it shows success exactly when its check passed, and otherwise an error carrying the check's message |
| Browser.GetItem | frontend/js/login-handler.js:172 | `getItem` is `null` exactly when the key is absent and otherwise the stored value |
| Browser.Or | frontend/js/login-handler.js:172 | `a \|\| b` is `a` when `a` is a non-empty string and `b` otherwise |
| Browser.MessageOr | frontend/js/login-handler.js:142 | the server's message is shown when non-empty, the fallback otherwise |
| Browser.StoredSessionId | frontend/js/login-handler.js:172 | a session is found exactly when one of the two areas holds a non-empty token, and the local token takes precedence |
| Browser.LocalTokenIsFound | frontend/js/login-handler.js:172 | a non-empty token just written to local storage is the one found |
| Browser.SessionTokenIsFound | frontend/js/login-handler.js:172 | a token written to session storage is found unless a non-empty local token shadows it, which is then found instead |
| Browser.ClearedStorageHasNoSession | frontend/js/form-handler.js:477-478 | after the key is removed from both areas no session is found |
| FormValidator.FirstFailure | frontend/js/validation.js:11-29 | running checks in order: valid iff every check holds, and otherwise the message is that of the first failing check |
| FormValidator.FirstFailureStep | frontend/js/validation.js:11-29 | the first check decides unless it passes, in which case the rest decide |
| FormValidator.IsUsernamePattern | frontend/js/validation.js:24 | `/^[a-zA-Z0-9_]+$/`: non-empty and every character a word character |
| FormValidator.ValidateUsername | frontend/js/validation.js:11-30 | valid iff 4 to 20 characters, all ASCII letters, digits or `_`; message empty iff valid |
| FormValidator.UsernameReportsFirstFailure | frontend/js/validation.js:11-30 | the verdict is that of the checks required, minimum length, maximum length, character set, in this order |
| FormValidator.UsernameTooShortExample | frontend/js/validation.js:16-18 | `"ab"` is reported as too short |
| FormValidator.CriteriaMet | frontend/js/validation.js:45-50 | at most four criteria are met, and exactly four iff all four character classes occur |
| FormValidator.ValidatePassword | frontend/js/validation.js:36-76 | valid iff at least 8 characters with an upper-case letter, a lower-case letter, a digit and a special character; strength none iff empty, strong iff all classes and at least 12 characters, medium iff at least 8 characters, three classes and not strong; a valid password is medium or strong |
| FormValidator.PasswordReportsFirstFailure | frontend/js/validation.js:36-76 | validity and message are those of the checks required, length, upper, lower, number, special, in this order |
| FormValidator.PasswordRulesInOrder | frontend/js/validation.js:37-75 | the password checks run in order give the validator's message ladder |
| FormValidator.StrongPasswordIsValid | frontend/js/validation.js:52-75 | a password rated strong is valid |
| FormValidator.MediumButInvalidExample | frontend/js/validation.js:52-73 | `"Password12"` is rejected for lacking a special character yet rated medium, since strength is computed first |
| FormValidator.ValidMediumExample | frontend/js/validation.js:52-75 | `"Password1!"` is valid and rated medium |
| FormValidator.EmailPatternSound | frontend/js/validation.js:86 | every string the email pattern accepts has no whitespace, exactly one `@` after a non-empty local part, and a `.` inside the domain |
| FormValidator.EmailPatternComplete | frontend/js/validation.js:86 | every such string is accepted by the pattern |
| FormValidator.EmailPatternCharacterized | frontend/js/validation.js:86-87 | the pattern accepts exactly those strings |
| FormValidator.MatchesEmailPattern | frontend/js/validation.js:86 | `/^[^\s@]+@[^\s@]+\.[^\s@]+$/` as written: some `@` and some later `.` split the text into three non-empty parts free of whitespace and `@` |
| FormValidator.IsSimpleEmail | frontend/js/validation.js:86 | the same language described by its shape: no whitespace, exactly one `@`, a non-empty local part, and a `.` inside the domain |
| FormValidator.ValidateEmail | frontend/js/validation.js:81-92 | valid iff no whitespace, exactly one `@` with a non-empty part before it, and a `.` after it that is neither first nor last in the domain |
| FormValidator.CleanPhone | frontend/js/validation.js:104 | `replace(/[\s-]/g, '')`: every ECMAScript whitespace character and `-` is deleted |
| FormValidator.IsMobileNumber | frontend/js/validation.js:106 | `/^09\d{9}$/`: eleven characters, `09` then nine ASCII digits |
| FormValidator.ValidatePhone | frontend/js/validation.js:98-112 | valid iff the input is non-empty and, with whitespace and `-` deleted, is `09` and nine ASCII digits; `cleaned` is present exactly on success and is that number, of length 11, with every other character count kept |
| FormValidator.PhoneIgnoresSeparator | frontend/js/validation.js:104 | inserting a whitespace character or `-` anywhere in a non-empty number changes neither verdict, message nor cleaned value |
| FormValidator.MobileNumberAccepted | frontend/js/validation.js:104-111 | `09` followed by nine digits is accepted and returned unchanged |
| FormValidator.ValidateFullName | frontend/js/validation.js:117-138 | valid iff non-empty and the trimmed name has 2 to 100 characters, all letters, whitespace, `-` or `.`; `cleaned` is the trimmed name exactly on success |
| FormValidator.BlankNameIsTooShort | frontend/js/validation.js:118-126 | a name of whitespace only is reported as too short, not as missing |
| FormValidator.ValidateRole | frontend/js/validation.js:143-155 | exactly the four roles pass; empty gives the select-a-role message, anything else the invalid-role message |
| FormValidator.ValidateFile | frontend/js/validation.js:160-178 | no file passes; a file passes iff its type is JPEG or PNG and its size is at most 2 MiB; a wrong type is reported as such whatever the size |
| FormValidator.FileSizeBoundary | frontend/js/validation.js:172-177 | a file of exactly 2097152 bytes passes and one byte more is too large |
| FormValidator.ValidateDate | frontend/js/validation.js:183-196 | valid iff the date is given and not after today |
| ServerValidator.MatchesBeforeFinalNewline | backend/validation.py:20 | `re.match` of a pattern ending in `$`: the whole text matches, or all of it but one final newline does |
| ServerValidator.PyValidateUsername | backend/validation.py:9-23 | `(True, "")` iff 4 to 20 characters matching the word class, where Python's `$` also allows one final newline; empty gives the required message |
| ServerValidator.PyValidatePassword | backend/validation.py:26-46 | `(True, "")` iff at least 8 characters with all four classes; empty gives the required message |
| ServerValidator.IsPySeparator | backend/validation.py:66 | the two characters `replace(' ', '').replace('-', '')` deletes |
| ServerValidator.PyValidatePhone | backend/validation.py:61-71 | only spaces and `-` are deleted; valid iff the rest is a mobile number, optionally followed by one newline, which is then returned as the cleaned text |
| ServerValidator.UsernameAgreesWithBrowser | backend/validation.py:9-23 | on ASCII usernames not ending in a newline the server's verdict and message equal the browser's |
| ServerValidator.UsernameDisagreement | backend/validation.py:20 | the two disagree exactly on a 4-to-20-character username that is word characters followed by one newline |
| ServerValidator.NewlineUsernameExample | backend/validation.py:20-23 | `"abcd\n"` passes on the server and fails in the browser |
| ServerValidator.PasswordAgreesWithBrowser | backend/validation.py:26-46 | on ASCII passwords the server's verdict and message equal the browser's |
| ServerValidator.PhoneAgreesWithBrowser | backend/validation.py:61-71 | on ASCII input whose only whitespace is the plain space, validity agrees and the server returns the browser's cleaned number |
| ServerValidator.BrowserStripsTrailingSeparator | frontend/js/validation.js:104 | the browser accepts a valid number followed by any whitespace or `-` and cleans it off |
| ServerValidator.ServerKeepsTrailingNewline | backend/validation.py:66-71 | the server accepts a valid number followed by a newline and returns the newline with it |
| ServerValidator.ServerRejectsTrailingTab | backend/validation.py:66-69 | the server rejects a valid number followed by a tab |
| Inventory.FilterSeq | frontend/js/inventory.js:21-29 | `filter` keeps exactly the elements the callback accepts, each as many times as it occurs in the input, and drops the rest |
| Inventory.FilterIsSubsequence | frontend/js/inventory.js:21-29 | the kept elements are in their original order |
| Inventory.StatusOf | frontend/js/inventory.js:32-35 | critical iff stock is 0, low iff non-zero and below the minimum, good otherwise |
| Inventory.StatusText | frontend/js/inventory.js:34-35 | the badge text of each class: `Out of Stock`, `Low Stock`, `In Stock` |
| Inventory.MatchesSearch | frontend/js/inventory.js:19-23 | the lower-cased name or SKU contains the lower-cased search term |
| Inventory.Keep | frontend/js/inventory.js:21-29 | the filter callback: the search match, narrowed to 0 < stock < minimum for `low` and to zero stock for `critical`; `all` and any other filter keep every match |
| Inventory.FilterItems | frontend/js/inventory.js:21-29 | every listed item passes the callback, each item the callback accepts appears exactly as often as in the list, and the list order is kept |
| Inventory.RenderRows | frontend/js/inventory.js:17-65 | one row per filtered item, in the filtered order, each with that item's badge class and badge text |
| Inventory.RenderedRowsAreKeptItems | frontend/js/inventory.js:21-65 | every row is a listed item the filter keeps, with its badge class and text, and every kept item has a row |
| Inventory.EmptySearchMatchesAll | frontend/js/inventory.js:19-23 | an empty search term matches every item |
| Inventory.SearchIgnoresCase | frontend/js/inventory.js:19-23 | a term occurring in the name or SKU in any case is matched after lower-casing |
| Inventory.LowFilterIsLowBadge | frontend/js/inventory.js:26 | `low` keeps exactly the matching items badged low with positive stock |
| Inventory.CriticalFilterIsCriticalBadge | frontend/js/inventory.js:27 | `critical` keeps exactly the matching items badged critical |
| Inventory.OtherFiltersKeepMatches | frontend/js/inventory.js:25-28 | `all` and every unknown filter keep exactly the search matches |
| Inventory.MaxId | frontend/js/inventory.js:131 | `Math.max` of the ids is an id of the list no id exceeds, and `-Infinity` for an empty list |
| Inventory.NextId | frontend/js/inventory.js:131 | `Math.max(...ids) + 1`, which stays `-Infinity` for an empty list |
| Inventory.NextIdIsFresh | frontend/js/inventory.js:131 | once some id is an integer, max + 1 is an integer above every id |
| Inventory.AddKeepsIdsDistinct | frontend/js/inventory.js:131-132 | appending with max + 1 keeps ids distinct |
| Inventory.AddToEmptyRepeatsId | frontend/js/inventory.js:131-132 | after the list is emptied, two adds both get `-Infinity` and ids repeat |
| Inventory.NewItem | frontend/js/inventory.js:118-132 | a saved item: the given id, the form's fields and the package icon |
| Inventory.Merge | frontend/js/inventory.js:129 | the merged item keeps its id and takes every form field and the package icon |
| Inventory.IsEditing | frontend/js/inventory.js:127 | `if (editingId)`: an id is set and it is not 0 |
| Inventory.FindIndex | frontend/js/inventory.js:128 | the first position holding the id, or -1 exactly when no item has it |
| Inventory.RemoveId | frontend/js/inventory.js:159 | exactly the items without the id remain, each as many times as before, in their order |
| Inventory.InventoryPage.constructor | frontend/js/inventory.js:2-14 | the script starts with the eight sample items, filter `all`, nothing edited, an empty search, the modal closed and an empty table body, which the `DOMContentLoaded` handler (lines 69-71) fills with Render |
| Inventory.InventoryPage.Render | frontend/js/inventory.js:17-65 | the table is redrawn from list, search and filter; the list is untouched |
| Inventory.InventoryPage.SelectFilter | frontend/js/inventory.js:74-81 | the clicked filter becomes current and the table is redrawn with it |
| Inventory.InventoryPage.TypeSearch | frontend/js/inventory.js:84 | the table is redrawn with the new search text |
| Inventory.InventoryPage.OpenAddModal | frontend/js/inventory.js:93-98 | edit mode ends and the add modal opens |
| Inventory.InventoryPage.CloseModal | frontend/js/inventory.js:100-107 | the modal closes |
| Inventory.SavedItems | frontend/js/inventory.js:127-133 | when editing, the item at the first index with the id is merged with the form and the list is unchanged when no item has it; otherwise a new item with NextId is appended |
| Inventory.InventoryPage.Save | frontend/js/inventory.js:110-137 | an invalid form changes nothing; in edit mode only the first item with the edited id is merged; otherwise an item with max id + 1 is appended; then the modal closes and the table is redrawn |
| Inventory.InventoryPage.EditProduct | frontend/js/inventory.js:141-154 | an unknown id changes nothing; a known one enters edit mode with the modal open |
| Inventory.InventoryPage.DeleteProduct | frontend/js/inventory.js:157-162 | after confirmation every item with the id is removed and the table redrawn; otherwise nothing changes |
| Login.RedirectFor | frontend/js/login-handler.js:130-138 | Owner and Admin go to user management, Cashier to the point of sale, every other role to the dashboard |
| Login.RegisteredRolesRedirect | frontend/js/login-handler.js:130-138 | of the four registrable roles only the inventory clerk lands on the dashboard |
| Login.FieldsPass | frontend/js/login-handler.js:47-54 | the submit gate: the trimmed username passes the registration rules and the password is non-empty |
| Login.LoginCredentials | frontend/js/login-handler.js:57-61 | the form data sent: the trimmed username, the password as typed and the remember-me box |
| Login.StoreToken | frontend/js/login-handler.js:123-127 | the token goes to local storage iff remember-me, otherwise to session storage, and the other area is unchanged |
| Login.StoredTokenIsFoundAgain | frontend/js/login-handler.js:172 | a freshly stored token is the one found on the next page load, unless an older local token shadows a session-only login |
| Login.LoginPage.constructor | frontend/js/login-handler.js:3-10 | the page opens unmarked and enabled, with the storage areas it finds |
| Login.LoginPage.InputUsername | frontend/js/login-handler.js:26-28 | typing sets the username and its `input` listener clears the username mark |
| Login.LoginPage.InputPassword | frontend/js/login-handler.js:36-38 | typing sets the password and its `input` listener clears the password mark |
| Login.LoginPage.SetRememberMe | frontend/js/login-handler.js:60 | the remember-me box holds what the user ticked; it has no listener, so nothing else changes |
| Login.LoginPage.CheckStoredSession | frontend/js/login-handler.js:172-197 | the page moves to user management only when a non-empty stored token is confirmed; otherwise it stays |
| Login.LoginPage.ValidateUsernameField | frontend/js/login-handler.js:71-82 | passes iff the trimmed username passes the registration rules, and the field shows that verdict |
| Login.LoginPage.ValidatePasswordField | frontend/js/login-handler.js:87-97 | passes iff the password is non-empty, and the field shows that verdict |
| Login.LoginPage.SetFormLoading | frontend/js/login-handler.js:156-169 | the button and both inputs are disabled, and the spinner shown, exactly while loading |
| Login.LoginPage.SubmitLogin | frontend/js/login-handler.js:102-151 | on acceptance the token is stored as StoreToken says, the role's redirect is scheduled and the form stays disabled; on refusal or network failure nothing is stored, the form is enabled and the matching alert shown |
| Login.LoginPage.RedirectTimerFires | frontend/js/login-handler.js:130-138 | the scheduled page, if any, becomes the location |
| Login.LoginPage.CheckFields | frontend/js/login-handler.js:47-54 | both checks run and mark their fields; the gate opens iff both pass |
| Login.LoginPage.Submit | frontend/js/login-handler.js:44-65 | both fields are always checked and marked; the request is sent, with the trimmed username, iff both checks pass; otherwise the fix-errors alert is shown and storage, redirect and controls are unchanged; once sent, the outcome's alert, storage, redirect and controls follow SubmitLogin |
| Login.LoginPage.SendIfChecked | frontend/js/login-handler.js:51-63 | after the checks: the fix-errors alert and no request, or the request with the trimmed username and the state SubmitLogin gives for the outcome |
| Lockout.LockedAt | backend/auth.py:189-208 | the lock condition: a row with at least five failures in the window and a last attempt less than 15 minutes before now |
| Lockout.CheckAccountLockout | backend/auth.py:198-212 | locked iff a row has at least 5 failures and a last attempt less than 15 minutes before now; the minutes are the remaining time in whole minutes, and 0 when unlocked |
| Lockout.FewFailuresDoNotLock | backend/auth.py:200-209 | fewer than 5 failures give `(False, 0)` |
| Lockout.NoLastAttemptDoesNotLock | backend/auth.py:202-209 | with no last attempt there is no lock |
| Lockout.NoAnswerDoesNotLock | backend/auth.py:198-212 | an empty result or a failing query gives `(False, 0)` |
| Lockout.MinutesWithinWindow | backend/auth.py:205-208 | while locked after a past failure the minutes are between 0 and 15 |
| Lockout.LockedWithZeroMinutes | backend/auth.py:205-208 | in the last minute of a lock the account is locked with 0 minutes left |
| Lockout.LockOnlyShrinks | backend/auth.py:205-209 | a later time is never locked when an earlier one was not, nor locked for longer |
| Lockout.WindowedFailuresLock | backend/auth.py:189-208 | five failures in the window with the last one inside it always lock |
| Registration.EscapeHtml | frontend/js/form-handler.js:507-516 | the output is at least as long and contains no `<`, `>`, `"` or `'` |
| Registration.UnescapeEscapedChar | frontend/js/form-handler.js:508-515 | each entry of the map decodes back to its character |
| Registration.EscapeRoundTrip | frontend/js/form-handler.js:507-516 | decoding the five entities recovers the original text |
| Registration.EscapeInjective | frontend/js/form-handler.js:507-516 | different texts escape differently |
| Registration.EscapeKeepsPlainText | frontend/js/form-handler.js:515 | text without the five special characters is unchanged |
| Registration.EscapeNotIdempotent | frontend/js/form-handler.js:507-516 | escaping `&` twice gives `&amp;amp;` |
| Registration.EscapeChar | frontend/js/form-handler.js:508-515 | the five-entry map of `escapeHtml`, every other character unchanged |
| Registration.ValidateConfirm | frontend/js/form-handler.js:179-190 | passes iff the confirmation is non-empty and equals the password; empty and mismatched get their own messages |
| Registration.FieldVerdict | frontend/js/form-handler.js:148-193 | the switch: each of the eight checked keys gets its validator's verdict, the confirmation its three-way rule, and `status` and `photo` none |
| Registration.ConfirmThrows | frontend/js/form-handler.js:179-181 | the confirmation case throws exactly when the confirmation input exists and the password input does not |
| Registration.CheckField | frontend/js/form-handler.js:144-203 | validateField throws exactly in the confirmation case without a password input, and returns false for a field without an element |
| Registration.FieldPasses | frontend/js/form-handler.js:144-203 | validateField returns true: the element exists, the call does not throw, and the field has no check or its check passes |
| Registration.MissingFieldFails | frontend/js/form-handler.js:145-146 | a field whose element the page lacks returns false |
| Registration.UncheckedFieldsPass | frontend/js/form-handler.js:192-193 | `status` and `photo` pass iff their element exists |
| Registration.ShownVerdict | frontend/js/form-handler.js:179-202 | the verdict validateField shows: the field's check, and none when the confirmation case throws |
| Registration.AllFieldsPass | frontend/js/form-handler.js:208-221 | validateAllFields returns true: all eight calls return true |
| Registration.ThrowFailsAll | frontend/js/form-handler.js:179-181 | while the confirmation check throws, the eight checks never all pass |
| Registration.AllFieldsPassByCalls | frontend/js/form-handler.js:208-221 | all checks pass iff each of the eight calls returned true |
| Registration.MarkAllFields | frontend/js/form-handler.js:208-218 | the marks after the eight calls of validateField in their order |
| Registration.MarkAllFieldsIsMarkChecked | frontend/js/form-handler.js:209-218 | the marks of validateAllFields are those of the eight-call ladder for the verdicts validateField shows |
| Registration.MarkField | frontend/js/form-handler.js:145-202 | as lines 145-146 and 196-202 do, only a field whose element exists and which has a verdict gets that verdict's mark; every other mark stays |
| Registration.MarkFieldKeepsOthers | frontend/js/form-handler.js:196-202 | checking one field marks no other field |
| Registration.MarkCheckedIsMarkEach | frontend/js/form-handler.js:209-218 | the eight calls are the checks of the eight fields in order |
| Registration.MarkEachMarksEvery | frontend/js/form-handler.js:209-220 | running checks over distinct fields marks each existing checked field with its own verdict and no other |
| Registration.EveryCheckedFieldIsMarked | frontend/js/form-handler.js:208-221 | for any verdicts, after the eight calls every existing checked field with a verdict shows it, even after an earlier failure, and other marks are as before |
| Registration.AllFieldsMarked | frontend/js/form-handler.js:208-221 | after validateAllFields every existing checked field shows its own check's verdict, except a confirmation whose check threw; other marks are as before |
| Registration.PersonalFieldsPassMeans | frontend/js/form-handler.js:150-165 | name, email, phone and date pass iff their element exists and their validator accepts |
| Registration.AccountFieldsPassMeans | frontend/js/form-handler.js:167-190 | username, role and password pass iff their element exists and their check accepts; the confirmation also needs the password input |
| Registration.AllFieldsPassMeans | frontend/js/form-handler.js:208-221 | all checks pass iff all eight elements exist, every validator accepts and the confirmation equals the password |
| Registration.Normalize | frontend/js/form-handler.js:236-243 | the values sent: name, email and username trimmed, whitespace and `-` deleted from the phone, the rest as entered |
| Registration.SubmittedValuesAreCleaned | frontend/js/form-handler.js:237-243 | once all checks pass, the sent name and phone are the validators' cleaned values, username and email are sent as checked, and the password is the confirmed one |
| Registration.ValidUsernameIsUnpadded | frontend/js/form-handler.js:241 | trimming an accepted username changes nothing |
| Registration.SimpleEmailIsUnpadded | frontend/js/form-handler.js:238 | trimming an accepted email changes nothing |
| Registration.SubmittedPhoneIsValid | frontend/js/form-handler.js:239 | the sent phone passes the phone check again |
| Registration.RowMatches | frontend/js/form-handler.js:497-499 | a row stays visible iff its lower-cased text contains the lower-cased term |
| Registration.EmptySearchShowsAll | frontend/js/form-handler.js:494-501 | an empty search shows every row |
| Registration.RowWithTermIsShown | frontend/js/form-handler.js:494-501 | a row containing the term as typed is shown |
| Registration.SearchIgnoresCase | frontend/js/form-handler.js:494-501 | a term and its lower-case form show the same rows |
| Registration.SearchUsers | frontend/js/form-handler.js:494-502 | each row is shown iff its lower-cased text contains the lower-cased term |
| Registration.RegistrationPage.constructor | frontend/js/form-handler.js:3-20 | the page opens with the elements and values it finds, nothing marked, no alert, no reset pending, the form enabled and no navigation |
| Registration.RegistrationPage.ValidateField | frontend/js/form-handler.js:144-203 | returns or throws as CheckField states, and marks only that field, only when it exists, has a check and does not throw |
| Registration.RegistrationPage.ValidateAllFields | frontend/js/form-handler.js:208-221 | runs all eight checks and marks as MarkAllFields; throws exactly when the confirmation check throws, and otherwise returns whether all eight pass |
| Registration.RegistrationPage.SetFormLoading | frontend/js/form-handler.js:294-307 | the submit and reset buttons are disabled, and the spinner shown, exactly while loading |
| Registration.ReportsOutcome | frontend/js/form-handler.js:264-284 | the alert for each outcome, and the form reset scheduled on success only |
| Registration.RegistrationPage.SubmitRegistration | frontend/js/form-handler.js:258-289 | the alert reports the outcome, only success schedules the reset, and the form is enabled again in every case |
| Registration.RegistrationPage.HandleSubmit | frontend/js/form-handler.js:226-253 | the fields are marked as MarkAllFields; the normalised values are sent iff all checks pass, and then the alert and reset report the outcome with the form enabled; a failed check shows the fix-errors alert, a throwing confirmation check shows nothing, and neither touches controls or reset |
| Registration.RegistrationPage.SendIfValid | frontend/js/form-handler.js:230-252 | given how validateAllFields ended: nothing on a throw, the fix-errors alert on false, or the normalised values sent and the outcome reported |
| Registration.RegistrationPage.HandleLogout | frontend/js/form-handler.js:458-488 | without confirmation nothing changes; with it the page goes to login, and the token is removed from both areas only when the request resolved |

## Left out

- DOM rendering, styling, the password-visibility toggles, the image preview, the strength meter and `showAlert`'s 5-second auto-hide: presentation only. Alerts and field marks are kept as abstract state.
- Registration.RegistrationPage: `handleReset` is not modelled. It runs from the reset button (form-handler.js:60) and from the 2-second timer after a successful registration (:274-277). It calls `registrationForm.reset()`, which puts every input back to its default value, and it clears every field mark. The model fixes `values` for the page object's life, and `resetPending` only records that the timer was set; it never fires. The photo handlers clearing `photoUpload.value` (:104, :121) are left out with it.
- Registration.RegistrationPage: typing in the registration form is not modelled, because `values` are fixed. So the `input` listeners that clear the edited field's mark (form-handler.js:47-54) and `handlePasswordInput`'s re-check of the confirmation (:131-138) are left out. The blur and change listeners (:38-45) call validateField, which is modelled as ValidateField.
- `fetch`, `setTimeout` and `window.location`: requests are outcomes passed in, timers are pending flags, and navigation is a `location` field.
- Loading, displaying, editing and deleting users on the registration page (`loadUsersList`, `displayUsersList`, `handleEdit`, `handleDelete`): server round trips and markup.
- `frontend/js/dashboard.js`, `app.py`, `app_config.py`, `backend/database.py`, `backend/test_connection.py`: charts, routing, SQL, connection handling. `app.py` calls validators that `backend/validation.py` does not define; they are not part of this model.
- `backend/auth.py` apart from the lockout rule (password hashing, id and session generation, session SQL, attempt logging): library calls and database writes. The lockout query's aggregate is an input.
- `Validator.validate_email_address`: it delegates to the external `email_validator` library.
- Python's `\d` in `validate_password` and `validate_phone` also matches non-ASCII decimal digits; the model uses ASCII digits on both sides.
- ServerValidator.UsernameAgreesWithBrowser: stated for ASCII input only. Outside ASCII the program disagrees: JavaScript counts `"😀😀"` as 4 UTF-16 units and reports bad characters, while Python counts 2 and reports too short.
- ServerValidator.PasswordAgreesWithBrowser: stated for ASCII input only. `"Aa1!😀😀"` has JavaScript length 8 but Python length 6, and `"Passwordx!٣"` passes Python's Unicode `\d` but not JavaScript's ASCII `\d`.
- ServerValidator.PhoneAgreesWithBrowser: stated for ASCII input only. `09` followed by nine Arabic-Indic digits passes `validate_phone` and fails the browser.
- String lengths are counted in Unicode scalar values, not UTF-16 code units as JavaScript counts them; they differ only for characters outside the Basic Multilingual Plane.
- `toLowerCase` is modelled on ASCII letters only.
- Inventory prices are carried as opaque reals (no `parseFloat`, no `toFixed` rounding), and stock values as integers (no `NaN` from `parseInt`). The form's `checkValidity` is an input.
- FormValidator.ValidateFile: only the default `maxSize` of 2097152 bytes is modelled, the only size the application uses, so the too-large message is fixed.
- FormValidator.ValidateDate: `new Date(date) > new Date()` depends on the clock and on date parsing; the comparison is an input.
- Lockout.CheckAccountLockout: the minutes are whole minutes of an integer microsecond difference; Python's floating-point `total_seconds() / 60` could round differently within a microsecond of a minute boundary.
- Inventory.InventoryPage.Save: when the edited id is gone, JavaScript assigns to property `-1` of the array, which adds no element; the model leaves the list unchanged and does not model that stray property.
- Inventory.InventoryPage.EditProduct: prefilling the form inputs is left out; the form's values are passed to Save.
- Registration.RegistrationPage.HandleSubmit: the script also throws when no status radio button is checked or the photo input is missing; the model takes the status value and the optional photo as given. The one throw it models is the confirmation check's without a password input.
- Registration.FieldVerdict: only the ten keys of `fields` are modelled. A name that the object inherits from `Object.prototype`, such as `toString`, would find a function, pass the element test and return true from `default`; no caller passes such a name.
