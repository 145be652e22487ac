# UserFrosting account controller: login, registration and account settings

This project models the request-decision logic of UserFrosting's `AccountController` POST
handlers in Dafny and proves properties of it:

- `login`: the guest guard, validation, the email-shaped identifier guard, the user lookup,
  the enabled and active checks, and the password check that binds the session.
- `register`: the honeypot, three gates (master account, registration switch, guest
  session), then validation, the CAPTCHA and both uniqueness checks feeding one shared
  error flag, the rewrite of the data, the new user and its group memberships, and the
  completion alert.
- `accountSettings`: page access, the current-password check, then the email, locale,
  display-name and password blocks in that order, validation, password hashing, and the
  write of the remaining fields onto the user.
- The CAPTCHA token write: the session keeps the md5 of the generated code.

Layout:

- `php.dfy` (`Php`): the PHP value rules the handlers rely on. These are string
  truthiness, `empty`, `trim`, `strtolower` in the C locale, the loose `== 0` test on a
  flag, and the decimal rendering of an id.
- `model.dfy` (`Model`): the shared data model. Users are property maps. Messages are
  a severity and a translation code. `Env` holds every collaborator the handlers call:
  - Fortress `sanitize`/`validate`
  - `UserLoader`/`GroupLoader` lookups
  - `checkAccess`, `verifyPassword`, `hashPassword` and `md5`
  - the site settings

  `Response` is what one handler call produces: a halt status or success, the alerts
  appended, the collaborators consulted in order, the new session, and any created account.
- `login.dfy`, `register.dfy`, `settings.dfy` (`LoginHandler`, `RegisterHandler`,
  `SettingsHandler`): one decision function per handler, plus the lemmas about it.
  - The settings handler is a recursive examination over the four settings in the
    order the code checks them.
  - Its success case is related to an independent reference definition, `Update`, of the
    map written onto the user.
- `controller.dfy` (`Controller`): class `AccountController`. It holds the alert stream,
  the session user, the guest flag, the stored CAPTCHA token and a ghost trace of
  consulted collaborators. Its methods take the handlers' steps in the same order:
  - early halts are returns
  - the shared error flag is a local
  - `addGroup` runs in a loop over the default groups
  - the settings write loops over the remaining keys
  - the four `accountSettings` blocks are a chain of mutually recursive methods
    (`ExamineFrom`, `ExamineSetting`, `CheckSetting`) over the settings, in the order
    the handler runs them, instead of straight-line code

  Each method is proved to leave exactly the state, alerts and status its handler's
  decision function describes, so every lemma about those functions holds of the
  methods.

Three behaviours of the code are modelled as written:

- `$email_login` is never defined, so it is falsy. Every identifier that passes
  `FILTER_VALIDATE_EMAIL` is therefore refused with the generic credentials alert,
  and the email lookup branch can never run.
- `removeFields` acts on the Fortress object after `$data` was copied from it, so the
  new user's data keeps `captcha` and `passwordc`.
- The settings email check looks the address up exactly as posted, while registration
  lower-cases and trims it first.

## Model

| member | source | states |
|---|---|---|
| Php.Falsy | userfrosting/controllers/accountcontroller.php:241 | no contract; a string is falsy (and `empty`) exactly when it is "" or "0"; `SpamIffNotSentinel` and `CaptchaRoundTrip` use it at :241 and :282, `Register` at :260 |
| Php.IsZero | userfrosting/controllers/accountcontroller.php:204-213 | no contract; the loose `== 0` test on a loaded flag, true for a missing property, "" or "0"; `DisabledBeforeInactive` states its use |
| Php.IsTrimChar | userfrosting/controllers/accountcontroller.php:292-294 | no contract; the six characters `trim` strips by default; `TrimLeftSpec` and `TrimRightSpec` state what is stripped |
| Php.TrimLeft | userfrosting/controllers/accountcontroller.php:292-294 | `ltrim` never lengthens its argument |
| Php.TrimRight | userfrosting/controllers/accountcontroller.php:292-294 | `rtrim` never lengthens its argument |
| Php.Trim | userfrosting/controllers/accountcontroller.php:292-294 | `trim` never lengthens its argument |
| Php.TrimLeftSpec | userfrosting/controllers/accountcontroller.php:292-294 | `ltrim` keeps a suffix whose first character is not a trim character, and every dropped character is a trim character |
| Php.TrimRightSpec | userfrosting/controllers/accountcontroller.php:292-294 | `rtrim` keeps a prefix whose last character is not a trim character, and every dropped character is a trim character |
| Php.TrimEnds | userfrosting/controllers/accountcontroller.php:292-294 | neither end of a trimmed string is a trim character |
| Php.TrimUnpadded | userfrosting/controllers/accountcontroller.php:292-294 | a string with no trim character at either end is left unchanged |
| Php.TrimIdempotent | userfrosting/controllers/accountcontroller.php:292-294 | trimming twice equals trimming once |
| Php.LowerChar | userfrosting/controllers/accountcontroller.php:292-294 | an ASCII upper-case letter maps to its lower-case letter 32 code points up; any other character is kept |
| Php.Lower | userfrosting/controllers/accountcontroller.php:292-294 | `strtolower` keeps the length |
| Php.LowerAt | userfrosting/controllers/accountcontroller.php:292-294 | `strtolower` works character by character |
| Php.LowerIdempotent | userfrosting/controllers/accountcontroller.php:292-294 | lower-casing twice equals lower-casing once |
| Php.Decimal | userfrosting/controllers/accountcontroller.php:320 | the primary group id is stored as a non-empty string of decimal digits |
| Php.DecimalValue | userfrosting/controllers/accountcontroller.php:320 | the stored digits denote exactly the primary group's id |
| Php.DecimalInjective | userfrosting/controllers/accountcontroller.php:320 | two ids are stored alike only when they are equal |
| LoginHandler.Login | userfrosting/controllers/accountcontroller.php:151-226 | no account is created and the CAPTCHA token is untouched; the session changes exactly on success, which leaves a non-guest session and the single `ACCOUNT_WELCOME` alert |
| LoginHandler.AlreadyLoggedInFirst | userfrosting/controllers/accountcontroller.php:158-162 | a logged-in user gets 200 and one `LOGIN_ALREADY_COMPLETE` warning before anything is validated or looked up |
| LoginHandler.InvalidFormHalts | userfrosting/controllers/accountcontroller.php:164-173 | failed validation halts with 400, carrying exactly the validator's alerts, before any lookup |
| LoginHandler.GenericRefusalIff | userfrosting/controllers/accountcontroller.php:178-224 | for a valid guest request, 403 with only `ACCOUNT_USER_OR_PASS_INVALID` happens if and only if the identifier is email-shaped or unknown, or the password is wrong; the session is then unchanged |
| LoginHandler.UnknownUserLooksLikeWrongPassword | userfrosting/controllers/accountcontroller.php:195-224 | an unknown user name and a known one with a wrong password give the same status and the same alerts |
| LoginHandler.EmailIdentifierRefused | userfrosting/controllers/accountcontroller.php:178-185 | every email-shaped identifier is refused generically with 403, before any user lookup, because `$email_login` is undefined |
| LoginHandler.DisabledBeforeInactive | userfrosting/controllers/accountcontroller.php:203-213 | a disabled account gets `ACCOUNT_DISABLED` whatever its activation; an enabled, inactive one gets `ACCOUNT_INACTIVE`; either halts with 403 before the password check and leaves the session unchanged |
| LoginHandler.OnlyCorrectPasswordBinds | userfrosting/controllers/accountcontroller.php:215-224 | success happens if and only if a guest's valid, non-email identifier names an enabled, active user whose password verifies; the session is then bound to exactly that loaded user |
| RegisterHandler.SpamSuspected | userfrosting/controllers/accountcontroller.php:241 | no contract; the honeypot test; `SpamIffNotSentinel` reduces it to "not exactly the sentinel" and `SpamHaltsFirst` states its effect |
| RegisterHandler.CaptchaRejected | userfrosting/controllers/accountcontroller.php:281-282 | no contract; the CAPTCHA test, applied only when `enable_captcha` is "1"; `CaptchaRoundTrip` and `CaptchaOnlyWhenEnabled` state it |
| RegisterHandler.Normalize | userfrosting/controllers/accountcontroller.php:291-300 | no contract; `NormalizeFields` states every field of the rewrite |
| RegisterHandler.NewRecord | userfrosting/controllers/accountcontroller.php:318-324 | no contract; `NewRecordFields` states every field of the new record |
| RegisterHandler.GroupsOf | userfrosting/controllers/accountcontroller.php:329-333 | no contract; `AddDefaultGroups` proves the `addGroup` loop equal to it and states its members |
| RegisterHandler.SpamIffNotSentinel | userfrosting/controllers/accountcontroller.php:240-241 | the honeypot fires if and only if `spiderbro` is not exactly "http://" |
| RegisterHandler.RuleAlertsSpec | userfrosting/controllers/accountcontroller.php:280-311 | the CAPTCHA alert and the two in-use alerts each appear if and only if their check failed; there are none when all passed; the user-name alert comes before the email alert |
| RegisterHandler.AddDefaultGroups | userfrosting/controllers/accountcontroller.php:329-333 | the `addGroup` loop ends with membership in exactly the primary group and every default group |
| RegisterHandler.Checked | userfrosting/controllers/accountcontroller.php:271-342 | no contract; `AccumulateThenHalt`, `BothTaken`, `CreatedAccount` and `CompletionMessage` state it through `Register` |
| RegisterHandler.Register | userfrosting/controllers/accountcontroller.php:233-344 | the session is never changed, and an account is created if and only if the request succeeds |
| RegisterHandler.SpamHaltsFirst | userfrosting/controllers/accountcontroller.php:240-245 | a failed honeypot halts with 500 after one danger alert; nothing is consulted or created, and no collaborator can change the outcome |
| RegisterHandler.GatesInOrder | userfrosting/controllers/accountcontroller.php:253-269 | a missing master account (403), disabled registration (403) and a logged-in user (200) each halt with their own single alert, in that order, before any validation or uniqueness check |
| RegisterHandler.AccumulateThenHalt | userfrosting/controllers/accountcontroller.php:271-316 | past the gates, validation and both uniqueness checks always run, in order; the request halts with 400 if and only if any check failed; failure creates nothing; the validator's alerts come first, then each rule alert exactly when its check failed |
| RegisterHandler.CaptchaOnlyWhenEnabled | userfrosting/controllers/accountcontroller.php:280-286 | no CAPTCHA alert is raised unless `enable_captcha` is exactly "1" |
| RegisterHandler.BothTaken | userfrosting/controllers/accountcontroller.php:302-316 | when both identifiers are taken, a single 400 ends with the user-name alert followed by the email alert |
| RegisterHandler.NormalizeFields | userfrosting/controllers/accountcontroller.php:291-300 | the rewrite sets the user name and email to their trimmed lower-cased form, the display name to its trimmed form, the locale to the site default, and `active` to "0" if and only if activation is required; it keeps every other field |
| RegisterHandler.NewRecordFields | userfrosting/controllers/accountcontroller.php:318-324 | the new record takes its primary group id (stored as digits that denote it) and title from the default primary group, and its password is the hash of the posted one; every other field is kept |
| RegisterHandler.CreatedRecord | userfrosting/controllers/accountcontroller.php:276-327 | the created record holds exactly the filtered keys plus the rewritten and added ones, with the values above; every other filtered field, `captcha` and `passwordc` included, is kept as filtered |
| RegisterHandler.CreatedAccount | userfrosting/controllers/accountcontroller.php:318-333 | a successful registration creates that record from the filtered data, with membership in exactly the primary group and every default group |
| RegisterHandler.CompletionMessage | userfrosting/controllers/accountcontroller.php:336-342 | success appends exactly one alert, `ACCOUNT_REGISTRATION_COMPLETE_TYPE2` if and only if activation is required, else `..._TYPE1` |
| RegisterHandler.CaseVariantConflicts | userfrosting/controllers/accountcontroller.php:291-316 | once a user is registered, a second registration whose user name differs only in case or surrounding whitespace halts with 400 and `ACCOUNT_USERNAME_IN_USE` |
| RegisterHandler.AliceIsAlice | userfrosting/controllers/accountcontroller.php:292 | "Alice" and "alice" normalise to the same user name |
| RegisterHandler.CaptchaRoundTrip | userfrosting/controllers/accountcontroller.php:280-286 | a stored token equal to the md5 of the answered, truthy code passes the CAPTCHA; when it is enabled, any token not equal to that md5 fails it |
| SettingsHandler.Constraint | userfrosting/controllers/accountcontroller.php:377-397 | no contract; the email-in-use and configured-locale constraints; `EmailUseCheckedRaw` and `UnknownLocaleRefused` state them |
| SettingsHandler.ChangeStep | userfrosting/controllers/accountcontroller.php:370-411 | no contract; `ChangeStepData`, `EmailChangeDenied` and `ExamineSkipsUnchanged` state what the email, locale and display-name blocks do |
| SettingsHandler.PasswordStep | userfrosting/controllers/accountcontroller.php:413-424 | no contract; `ExamineWrites` and `SuccessWrites` state that a password is written, hashed, only when given |
| SettingsHandler.Finish | userfrosting/controllers/accountcontroller.php:426-449 | no contract; `ExamineWrites` and `SuccessWrites` state the write and the single success alert |
| SettingsHandler.Written | userfrosting/controllers/accountcontroller.php:434-440 | no contract; `WrittenIsUpdate` proves it equal to the reference `Update` for the filled-in data |
| SettingsHandler.Update | userfrosting/controllers/accountcontroller.php:434-445 | no contract; the reference definition of the write, key by key; `WrittenIsUpdate` and `SuccessWrites` relate the handler to it |
| SettingsHandler.Settings | userfrosting/controllers/accountcontroller.php:346-450 | page access is always consulted first; nothing is created; a halt leaves the session unchanged with at least one alert; success appends only `ACCOUNT_SETTINGS_UPDATED` |
| SettingsHandler.NextSetting | userfrosting/controllers/accountcontroller.php:370-424 | each setting block is followed by the next one in the order email, locale, display name, password |
| SettingsHandler.Examine | userfrosting/controllers/accountcontroller.php:370-450 | from any setting on: no account is created, and the guest flag and CAPTCHA token are kept; a halt leaves the session unchanged with at least one alert; success appends only `ACCOUNT_SETTINGS_UPDATED` |
| SettingsHandler.AssignFields | userfrosting/controllers/accountcontroller.php:442-445 | the assignment loop leaves the user with every written key set to its new value and every other property unchanged |
| SettingsHandler.PageAccessFirst | userfrosting/controllers/accountcontroller.php:353-357 | without page access the request halts with 403 and `ACCESS_DENIED`, having consulted nothing else |
| SettingsHandler.PasswordCheckBeforeSettings | userfrosting/controllers/accountcontroller.php:364-368 | a missing or non-verifying `passwordcheck` halts with 403 and `ACCOUNT_PASSWORD_INVALID` before any setting is examined |
| SettingsHandler.ExamineInOrder | userfrosting/controllers/accountcontroller.php:370-424 | from any setting on, access checks run in increasing order and only for that setting or later ones |
| SettingsHandler.SettingsExaminedInOrder | userfrosting/controllers/accountcontroller.php:353-424 | the access-checked settings form an increasing subsequence of email, locale, display name, password; each is checked at most once |
| SettingsHandler.EmailChangeDenied | userfrosting/controllers/accountcontroller.php:370-376 | a changed email without the capability halts with 403 and `ACCESS_DENIED`; no later setting is examined and the user is unchanged |
| SettingsHandler.EmailUseCheckedRaw | userfrosting/controllers/accountcontroller.php:377-381 | a changed, authorised email is looked up exactly as posted, and an address in use halts with 400 and `ACCOUNT_EMAIL_IN_USE` |
| SettingsHandler.UnknownLocaleRefused | userfrosting/controllers/accountcontroller.php:370-397 | once the email block goes on, whether the email was unchanged or changed, authorised and unused, a changed, authorised locale outside the configured set halts with 400 and `ACCOUNT_SPECIFY_LOCALE` |
| SettingsHandler.ChangeStepData | userfrosting/controllers/accountcontroller.php:370-411 | a setting block that goes on leaves the data as it was, except that its own setting holds the posted value or, when absent, the current one |
| SettingsHandler.ExamineWrites | userfrosting/controllers/accountcontroller.php:370-445 | a successful examination overwrites the user with the filled-in data after the password block: password hashed, control fields dropped |
| SettingsHandler.WrittenIsUpdate | userfrosting/controllers/accountcontroller.php:413-440 | the data written after the blocks equals `Update`, the key-by-key reference definition of the write |
| SettingsHandler.SuccessWrites | userfrosting/controllers/accountcontroller.php:426-449 | on success the user becomes the old user overwritten by `Update`, and `ACCOUNT_SETTINGS_UPDATED` is the only alert. `Update` writes every posted key except `csrf_token`, `passwordc` and `passwordcheck`; the password only when given, and hashed; an unposted email, locale or display name keeps its current value |
| SettingsHandler.StepKeepsOthers | userfrosting/controllers/accountcontroller.php:370-424 | a setting block never changes whether another email, locale or display name differs from the current value |
| SettingsHandler.ExamineSkipsUnchanged | userfrosting/controllers/accountcontroller.php:370-411 | a setting that is absent or unchanged is never access-checked by any later block |
| SettingsHandler.UnchangedNotChecked | userfrosting/controllers/accountcontroller.php:370-445 | an email, locale or display name that is absent or posted unchanged is never access-checked, and after success it holds its current value |
| Controller.AccountController.Login | userfrosting/controllers/accountcontroller.php:151-226 | the status, appended alerts, consulted collaborators, user, guest flag and token are exactly those of `LoginHandler.Login`, so every login lemma holds of the method |
| Controller.AccountController.Register | userfrosting/controllers/accountcontroller.php:233-344 | the status, created account, appended alerts, consulted collaborators and session are exactly those of `RegisterHandler.Register` |
| Controller.AccountController.RegisterChecked | userfrosting/controllers/accountcontroller.php:271-344 | the part past the gates matches `RegisterHandler.Checked` in status, account, alerts and trace, and leaves the session alone |
| Controller.AccountController.CheckRegistration | userfrosting/controllers/accountcontroller.php:271-311 | the error flag is set if and only if validation, the CAPTCHA or a uniqueness check failed; the data is rewritten as `Normalize` states; validation, user-name and email lookups run in that order |
| Controller.AccountController.ValidateRegistration | userfrosting/controllers/accountcontroller.php:274-286 | validation failure and CAPTCHA rejection are reported as flags; the validator's alerts are appended, then the CAPTCHA alert exactly on rejection |
| Controller.AccountController.CheckUnique | userfrosting/controllers/accountcontroller.php:302-311 | both identifiers are always looked up, user name first, and each taken one appends its in-use alert |
| Controller.AccountController.CreateUser | userfrosting/controllers/accountcontroller.php:318-333 | the created account is `NewRecord` of the rewritten data, with the primary group and the default groups |
| Controller.AccountController.NormalizeData | userfrosting/controllers/accountcontroller.php:291-300 | the in-place rewrite equals `Normalize`; the user name and email end trimmed and lower-cased |
| Controller.AccountController.AccountSettings | userfrosting/controllers/accountcontroller.php:346-450 | the status, appended alerts, consulted collaborators and user are exactly those of `SettingsHandler.Settings`, so the ordering and write lemmas hold of the method |
| Controller.AccountController.ExamineFrom | userfrosting/controllers/accountcontroller.php:370-450 | the blocks from a given setting on match `SettingsHandler.Examine` |
| Controller.AccountController.ExamineSetting | userfrosting/controllers/accountcontroller.php:370-411 | an email, locale or display-name block followed by the rest matches `SettingsHandler.Examine` |
| Controller.AccountController.ExaminePassword | userfrosting/controllers/accountcontroller.php:413-450 | the password block followed by validation and the write matches `SettingsHandler.Examine` |
| Controller.AccountController.FinishSettings | userfrosting/controllers/accountcontroller.php:426-450 | validation, hashing, removal of the control fields and the assignment loop match `SettingsHandler.Finish` |
| Controller.AccountController.CheckPassword | userfrosting/controllers/accountcontroller.php:413-424 | the password block refuses or rewrites the data exactly as its decision step says, and leaves the user alone |
| Controller.AccountController.CheckSetting | userfrosting/controllers/accountcontroller.php:370-411 | an email, locale or display-name block refuses or fills in the data exactly as its decision step says, and leaves the user alone |
| Controller.AccountController.GenerateCaptcha | userfrosting/controllers/accountcontroller.php:462-466 | the session token becomes the md5 of the generated code; nothing else changes |

## Left out

- The page-render methods (`pageHome` to `pageAccountSettings`): templating and schema loading, no decision logic.
- CAPTCHA image drawing, base64 encoding and `rand`. The generated code is a parameter of `GenerateCaptcha`, which keeps only the token write.
- `logout` (`session_destroy` and redirect), `error_log`, and HTTP halt and redirect mechanics. A halt is a returned status.
- Fortress sanitize/validate, `UserLoader`/`GroupLoader`, `checkAccess`, `verifyPassword` (`User::login`), `hashPassword` and `md5`. These are code this model cannot see, so they are fields of `Env`, taken as given functions.
  - Validation is a function to the list of alerts it appends; the request is valid when that list is empty.
  - `checkAccess` receives the hook and the property name; the user argument is the session user.
- `store()` persistence, and the race between the uniqueness checks and `store()` under concurrent requests. The model is sequential.
- Message parameters (`$data`, the exported user) passed to `addMessageTranslated`. Alerts are modelled as severity and code only.
- The email lookup branch of `login` is not modelled as a separate path. It cannot be reached, because `$email_login` is undefined.
- PHP loose comparisons are modelled as string equality. The numeric-string cases of `!=` and `in_array`, and of `enable_captcha == "1"` at line 281 (where "01", "1.0" and " 1" also equal "1"), are not modelled; `enable_captcha` being exactly "1" in the rows above is this reading.
- Php.IsZero: `$flag == 0` is true only for a missing property, "" or "0". The PHP comparison is not modelled exactly:
  - other numeric strings equal to zero, such as "00", "0.0" or " 0", compare equal to 0 in every PHP version but are not zero here
  - before PHP 8, non-numeric strings also compare equal to 0 but are not zero here
  - from PHP 8, "" does not compare equal to 0 but is zero here
- Php.Lower: ASCII only, as `strtolower` in the C locale; no multibyte case folding.
- A user property that is not set reads as "". The settings check therefore treats an absent current value as "".
- The default primary group is assumed to exist: `Env.primaryGroup` is always present. When `GroupLoader::fetch` finds none, the code stores a null `primary_group_id` and `title` and calls `addGroup(null)`; that case is not modelled.
- Group ids are the default-group list in the loader's order. Its keys are taken as the group ids, and a repeated id adds nothing.
