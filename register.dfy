/**
 * `AccountController::register`: the decision made for one registration POST.
 *
 * The honeypot runs first; then three gates (master account, registration switch,
 * guest session) each halt at once; then validation, the CAPTCHA and both uniqueness
 * checks only raise one shared error flag, and the request halts once with 400 if it
 * is set. `removeFields` runs after the filtered data was copied, so `captcha` and
 * `passwordc` stay in the data handed to the new user.
 */
module RegisterHandler {
  import opened Php
  import opened Model

  /** The honeypot test: `spiderbro` missing, falsy, or not the sentinel "http://". */
  predicate SpamSuspected(post: Fields) {
    "spiderbro" !in post || Falsy(post["spiderbro"]) || post["spiderbro"] != "http://"
  }

  /** The sentinel is truthy, so the falsiness test adds nothing: only the exact sentinel passes. */
  lemma SpamIffNotSentinel(post: Fields)
    ensures SpamSuspected(post) <==> Get(post, "spiderbro") != "http://"
  {
  }

  /** The CAPTCHA test, applied only when `enable_captcha` is "1": answer missing, falsy, or its md5 differs from the stored token. */
  predicate CaptchaRejected(env: Env, token: string, data: Fields) {
    env.site.enableCaptcha == "1" &&
    ("captcha" !in data || Falsy(data["captcha"]) || env.md5(data["captcha"]) != token)
  }

  /** The in-place rewrite of the filtered data before the uniqueness checks. */
  function Normalize(site: Site, data: Fields): Fields {
    data["user_name" := Lower(Trim(Get(data, "user_name")))]
        ["display_name" := Trim(Get(data, "display_name"))]
        ["email" := Lower(Trim(Get(data, "email")))]
        ["locale" := site.defaultLocale]
        ["active" := if Truthy(site.requireActivation) then "0" else "1"]
  }

  /** The record handed to `new User`: primary group id and title from the default primary group, password hashed. */
  function NewRecord(env: Env, d: Fields): Record {
    d["primary_group_id" := Decimal(env.primaryGroup.id)]
     ["title" := env.primaryGroup.newUserTitle]
     ["password" := env.hashPassword(Get(d, "password"))]
  }

  /** The groups a new user is added to: the default primary group and every default group. */
  function GroupsOf(primary: nat, defaults: seq<nat>): set<nat> {
    {primary} + set g | g in defaults
  }

  /** The business-rule alerts appended after the validator's, in the order the checks run. */
  function RuleAlerts(captchaFail: bool, nameTaken: bool, emailTaken: bool): seq<Message> {
    (if captchaFail then [Message(Danger, CaptchaFail)] else [])
    + (if nameTaken then [Message(Danger, UserNameInUse)] else [])
    + (if emailTaken then [Message(Danger, EmailInUse)] else [])
  }

  /** Each rule alert is raised exactly when its check failed; none at all when all passed; user name before email. */
  lemma RuleAlertsSpec(captchaFail: bool, nameTaken: bool, emailTaken: bool)
    ensures var m := RuleAlerts(captchaFail, nameTaken, emailTaken);
      (Message(Danger, CaptchaFail) in m <==> captchaFail) &&
      (Message(Danger, UserNameInUse) in m <==> nameTaken) &&
      (Message(Danger, EmailInUse) in m <==> emailTaken) &&
      (m == [] <==> !captchaFail && !nameTaken && !emailTaken) &&
      (nameTaken && emailTaken ==> m[|m| - 2..] == [Message(Danger, UserNameInUse), Message(Danger, EmailInUse)])
  {
  }

  /** The rule alerts appended one check at a time, after the alerts already there, form `RuleAlerts`. */
  lemma RuleAlertsAppended(a: seq<Message>, captchaFail: bool, nameTaken: bool, emailTaken: bool)
    ensures a + (if captchaFail then [Message(Danger, CaptchaFail)] else [])
              + (if nameTaken then [Message(Danger, UserNameInUse)] else [])
              + (if emailTaken then [Message(Danger, EmailInUse)] else [])
            == a + RuleAlerts(captchaFail, nameTaken, emailTaken)
  {
  }

  function CompletionCode(site: Site): Code {
    if Truthy(site.requireActivation) then RegistrationCompleteType2 else RegistrationCompleteType1
  }

  /** The `addGroup` loop over the default groups, after the primary group was added. */
  method AddDefaultGroups(primary: nat, defaults: seq<nat>) returns (groups: set<nat>)
    ensures groups == GroupsOf(primary, defaults)
    ensures forall g :: g in groups <==> g == primary || g in defaults
  {
    groups := {primary};
    for i := 0 to |defaults|
      invariant groups == {primary} + set g | g in defaults[..i]
    {
      assert defaults[..i + 1] == defaults[..i] + [defaults[i]];
      groups := groups + {defaults[i]};
    }
    assert defaults[..|defaults|] == defaults;
  }

  /** What `register` does for `post`, starting from session `s`. */
  function Register(env: Env, s: Session, post: Fields): (r: Response)
    ensures r.session == s
    ensures r.created.Some? <==> r.status == Done
  {
    if SpamSuspected(post) then
      Stop(Halt(500), Message(Danger, Untranslated(SpamText)), [], s)
    else if env.masterId !in env.userIds then
      Stop(Halt(403), Message(Danger, MasterAccountNotExists), [MasterLookup], s)
    else if Falsy(env.site.canRegister) then
      Stop(Halt(403), Message(Danger, RegistrationDisabled), [MasterLookup], s)
    else if !s.guest then
      Stop(Halt(200), Message(Danger, RegistrationLogout), [MasterLookup], s)
    else
      Checked(env, s, post)
  }

  /** The accumulate-then-halt part of `register`, reached by a guest past the three gates. */
  function Checked(env: Env, s: Session, post: Fields): Response {
    var data := env.registerForm.sanitize(post);
    var errors := env.registerForm.validate(data);
    var captchaFail := CaptchaRejected(env, s.captcha, data);
    var name := Lower(Trim(Get(data, "user_name")));
    var email := Lower(Trim(Get(data, "email")));
    var nameTaken := name in env.byName;
    var emailTaken := email in env.byEmail;
    var msgs := errors + RuleAlerts(captchaFail, nameTaken, emailTaken);
    var consulted := [MasterLookup, Validation, UserNameLookup(name), EmailLookup(email)];
    if errors != [] || captchaFail || nameTaken || emailTaken then
      Response(Halt(400), msgs, consulted, s, None)
    else
      Response(Done, msgs + [Message(Success, CompletionCode(env.site))], consulted, s,
               Some(Account(NewRecord(env, Normalize(env.site, data)), GroupsOf(env.primaryGroup.id, env.defaultGroups))))
  }

  /** The guest passes all three gates. */
  predicate PastGates(env: Env, s: Session, post: Fields) {
    !SpamSuspected(post) && env.masterId in env.userIds && Truthy(env.site.canRegister) && s.guest
  }

  /** The filtered data the accumulate-then-halt part works on. */
  function Data(env: Env, post: Fields): Fields {
    env.registerForm.sanitize(post)
  }

  /**
   * A failed honeypot halts with 500 after exactly one danger alert; nothing is
   * consulted, so no master, registration, validation or uniqueness check runs, and
   * the outcome does not depend on any collaborator.
   */
  lemma SpamHaltsFirst(env: Env, other: Env, s: Session, post: Fields)
    requires SpamSuspected(post)
    ensures var r := Register(env, s, post);
      r.status == Halt(500) && r.msgs == [Message(Danger, Untranslated(SpamText))] && r.consulted == [] &&
      r.created == None
    ensures Register(env, s, post) == Register(other, s, post)
  {
  }

  /**
   * Past the honeypot, a missing master account, then disabled registration, then a
   * logged-in user halt at once, in that order, each with one alert and before validation.
   */
  lemma GatesInOrder(env: Env, s: Session, post: Fields)
    requires !SpamSuspected(post)
    ensures var r := Register(env, s, post);
      (env.masterId !in env.userIds ==>
         r.status == Halt(403) && r.msgs == [Message(Danger, MasterAccountNotExists)]) &&
      (env.masterId in env.userIds && Falsy(env.site.canRegister) ==>
         r.status == Halt(403) && r.msgs == [Message(Danger, RegistrationDisabled)]) &&
      (env.masterId in env.userIds && Truthy(env.site.canRegister) && !s.guest ==>
         r.status == Halt(200) && r.msgs == [Message(Danger, RegistrationLogout)]) &&
      (!PastGates(env, s, post) ==> r.consulted == [MasterLookup])
  {
  }

  /**
   * Past the gates, validation, the CAPTCHA and both uniqueness checks all run and only
   * collect alerts, in that order; the request halts once, with 400, exactly when one
   * of them failed.
   */
  lemma AccumulateThenHalt(env: Env, s: Session, post: Fields)
    requires PastGates(env, s, post)
    ensures var data := Data(env, post);
      var errors := env.registerForm.validate(data);
      var name := Lower(Trim(Get(data, "user_name")));
      var email := Lower(Trim(Get(data, "email")));
      var failed := errors != [] || CaptchaRejected(env, s.captcha, data) ||
                    name in env.byName || email in env.byEmail;
      var r := Register(env, s, post);
      r.consulted == [MasterLookup, Validation, UserNameLookup(name), EmailLookup(email)] &&
      (r.status == Halt(400) <==> failed) &&
      (failed ==> r.created == None) &&
      r.msgs[..|errors|] == errors &&
      (Message(Danger, CaptchaFail) in r.msgs[|errors|..] <==> CaptchaRejected(env, s.captcha, data)) &&
      (Message(Danger, UserNameInUse) in r.msgs[|errors|..] <==> name in env.byName) &&
      (Message(Danger, EmailInUse) in r.msgs[|errors|..] <==> email in env.byEmail)
  {
    var data := Data(env, post);
    var errors := env.registerForm.validate(data);
    var name := Lower(Trim(Get(data, "user_name")));
    var email := Lower(Trim(Get(data, "email")));
    var rules := RuleAlerts(CaptchaRejected(env, s.captcha, data), name in env.byName, email in env.byEmail);
    RuleAlertsSpec(CaptchaRejected(env, s.captcha, data), name in env.byName, email in env.byEmail);
    var r := Checked(env, s, post);
    assert Register(env, s, post) == r;
    if r.status == Done {
      assert rules == [];
      assert r.msgs[|errors|..] == [Message(Success, CompletionCode(env.site))];
    } else {
      assert r.msgs == errors + rules;
      assert r.msgs[|errors|..] == rules;
    }
  }

  /** The CAPTCHA is only consulted when `enable_captcha` is exactly "1". */
  lemma CaptchaOnlyWhenEnabled(env: Env, s: Session, post: Fields)
    requires PastGates(env, s, post) && env.site.enableCaptcha != "1"
    ensures Message(Danger, CaptchaFail) !in Register(env, s, post).msgs[|env.registerForm.validate(Data(env, post))|..]
  {
    AccumulateThenHalt(env, s, post);
  }

  /** Both identifiers taken: one 400 carrying both in-use alerts, user name first. */
  lemma BothTaken(env: Env, s: Session, post: Fields)
    requires PastGates(env, s, post)
    requires Lower(Trim(Get(Data(env, post), "user_name"))) in env.byName
    requires Lower(Trim(Get(Data(env, post), "email"))) in env.byEmail
    ensures var r := Register(env, s, post);
      r.status == Halt(400) && |r.msgs| >= 2 &&
      r.msgs[|r.msgs| - 2..] == [Message(Danger, UserNameInUse), Message(Danger, EmailInUse)]
  {
    var data := Data(env, post);
    var rules := RuleAlerts(CaptchaRejected(env, s.captcha, data), true, true);
    RuleAlertsSpec(CaptchaRejected(env, s.captcha, data), true, true);
    var r := Register(env, s, post);
    assert r.msgs == env.registerForm.validate(data) + rules;
    assert r.msgs[|r.msgs| - 2..] == rules[|rules| - 2..];
  }

  /**
   * The rewrite keeps every filtered field it does not set, and sets the user name and
   * email to their trimmed lower-cased form, the display name to its trimmed form, the
   * locale to the site default and `active` to "0" exactly when activation is required.
   */
  lemma NormalizeFields(site: Site, data: Fields)
    ensures var d := Normalize(site, data);
      d.Keys == data.Keys + {"user_name", "display_name", "email", "locale", "active"} &&
      d["user_name"] == Lower(Trim(Get(data, "user_name"))) &&
      d["email"] == Lower(Trim(Get(data, "email"))) &&
      d["display_name"] == Trim(Get(data, "display_name")) &&
      d["locale"] == site.defaultLocale &&
      (d["active"] == "0" <==> Truthy(site.requireActivation)) &&
      (forall k :: k in data && k !in {"user_name", "display_name", "email", "locale", "active"} ==> d[k] == data[k])
  {
  }

  /** The new record keeps the normalised data apart from the group id, title and password it sets. */
  lemma NewRecordFields(env: Env, d: Fields)
    ensures var rec := NewRecord(env, d);
      rec.Keys == d.Keys + {"primary_group_id", "title", "password"} &&
      rec["primary_group_id"] == Decimal(env.primaryGroup.id) &&
      DigitsValue(rec["primary_group_id"]) == env.primaryGroup.id &&
      rec["title"] == env.primaryGroup.newUserTitle &&
      rec["password"] == env.hashPassword(Get(d, "password")) &&
      (forall k :: k in d && k !in {"primary_group_id", "title", "password"} ==> rec[k] == d[k])
  {
    DecimalValue(env.primaryGroup.id);
  }

  /**
   * The record a registration creates from filtered data carries the trimmed,
   * lower-cased user name and email, the trimmed display name, the site's default
   * locale, `active` "0" exactly when activation is required, the default primary
   * group's id and title and the hashed password; every other filtered field,
   * `captcha` and `passwordc` included, is kept as filtered.
   */
  lemma CreatedRecord(env: Env, data: Fields)
    ensures var rec := NewRecord(env, Normalize(env.site, data));
      rec.Keys == data.Keys + {"user_name", "display_name", "email", "locale", "active", "primary_group_id", "title", "password"} &&
      rec["user_name"] == Lower(Trim(Get(data, "user_name"))) &&
      rec["email"] == Lower(Trim(Get(data, "email"))) &&
      rec["display_name"] == Trim(Get(data, "display_name")) &&
      rec["locale"] == env.site.defaultLocale &&
      (rec["active"] == "0" <==> Truthy(env.site.requireActivation)) &&
      rec["primary_group_id"] == Decimal(env.primaryGroup.id) &&
      rec["title"] == env.primaryGroup.newUserTitle &&
      rec["password"] == env.hashPassword(Get(data, "password")) &&
      (forall k :: k in data && k !in {"user_name", "display_name", "email", "locale", "active", "primary_group_id", "title", "password"} ==>
         rec[k] == data[k])
  {
    var d := Normalize(env.site, data);
    NormalizeFields(env.site, data);
    NewRecordFields(env, d);
    assert Get(d, "password") == Get(data, "password");
  }

  /**
   * A successful registration creates the record `CreatedRecord` describes, built from
   * the filtered data, with membership in exactly the primary group and every default group.
   */
  lemma CreatedAccount(env: Env, s: Session, post: Fields)
    requires Register(env, s, post).status == Done
    ensures var a := Register(env, s, post).created.value;
      a.record == NewRecord(env, Normalize(env.site, Data(env, post))) &&
      (forall g :: g in a.groups <==> g == env.primaryGroup.id || g in env.defaultGroups)
  {
  }

  /** A successful registration appends exactly one success alert, `..._TYPE2` iff activation is required. */
  lemma CompletionMessage(env: Env, s: Session, post: Fields)
    requires Register(env, s, post).status == Done
    ensures var r := Register(env, s, post);
      r.msgs == [Message(Success, CompletionCode(env.site))] &&
      (CompletionCode(env.site) == RegistrationCompleteType2 <==> Truthy(env.site.requireActivation))
  {
  }

  /**
   * Uniqueness is case- and whitespace-insensitive: once a registration succeeded and
   * its user is known by its stored user name, a second one whose user name differs
   * only in case or surrounding whitespace halts with 400 and `ACCOUNT_USERNAME_IN_USE`.
   */
  lemma CaseVariantConflicts(env: Env, s: Session, post1: Fields, post2: Fields)
    requires Register(env, s, post1).status == Done
    requires PastGates(env, s, post2)
    requires Lower(Trim(Get(Data(env, post2), "user_name"))) == Lower(Trim(Get(Data(env, post1), "user_name")))
    ensures var rec := Register(env, s, post1).created.value.record;
      var after := env.(byName := env.byName[rec["user_name"] := rec]);
      var r := Register(after, s, post2);
      r.status == Halt(400) && Message(Danger, UserNameInUse) in r.msgs
  {
    var rec := Register(env, s, post1).created.value.record;
    var after := env.(byName := env.byName[rec["user_name"] := rec]);
    CreatedAccount(env, s, post1);
    CreatedRecord(env, Data(env, post1));
    assert PastGates(after, s, post2);
    AccumulateThenHalt(after, s, post2);
  }

  /** "Alice" and "alice" normalise to the same user name. */
  lemma AliceIsAlice()
    ensures Lower(Trim("Alice")) == Lower(Trim("alice")) == "alice"
  {
    TrimUnpadded("Alice");
    TrimUnpadded("alice");
    LowerAt("Alice");
    LowerAt("alice");
  }

  /**
   * The CAPTCHA round trip: when the session holds the md5 of the generated code and
   * the filtered answer is that (truthy) code, the CAPTCHA check passes; any answer
   * whose md5 differs from the stored token fails it when the CAPTCHA is enabled.
   */
  lemma CaptchaRoundTrip(env: Env, code: string, data: Fields)
    requires Truthy(code) && Get(data, "captcha") == code
    ensures !CaptchaRejected(env, env.md5(code), data)
    ensures forall token :: env.site.enableCaptcha == "1" && env.md5(code) != token ==> CaptchaRejected(env, token, data)
  {
  }
}
