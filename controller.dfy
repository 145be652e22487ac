/**
 * `AccountController`'s POST handlers as the step-by-step code they are: each one
 * appends to the alert stream, may rebind the session's user, and halts early with
 * an HTTP status. Each method is proved to do exactly what its handler's decision
 * function says, so every property proved about those functions holds of it.
 */
module Controller {
  import opened Php
  import opened Model
  import LoginHandler
  import RegisterHandler
  import SettingsHandler

  /** The request-scoped application state the handlers read and change. */
  class AccountController {
    /** The alert message stream (`$app->alerts`). */
    var alerts: seq<Message>
    /** The session's current user (`$app->user`) and whether it is the guest. */
    var user: Record
    var guest: bool
    /** `$_SESSION['userfrosting']['captcha']`, "" when unset. */
    var captcha: string
    /** Every collaborator consulted so far, in order. */
    ghost var consulted: seq<Query>

    constructor (u: Record, isGuest: bool)
      ensures alerts == [] && consulted == [] && user == u && guest == isGuest && captcha == ""
    {
      alerts := [];
      user := u;
      guest := isGuest;
      captcha := "";
      consulted := [];
    }

    /** `login`: binds the user on a correct password, otherwise halts with the handler's status. */
    method Login(env: Env, post: Fields) returns (status: Status)
      modifies this
      ensures var r := LoginHandler.Login(env, Model.Session(old(user), old(guest), old(captcha)), post);
        status == r.status && alerts == old(alerts) + r.msgs &&
        user == r.session.user && guest == r.session.guest && captcha == r.session.captcha && consulted == old(consulted) + r.consulted
    {
      if !guest {
        alerts := alerts + [Message(Warning, LoginAlreadyComplete)];
        return Halt(200);
      }
      var data := env.loginForm.sanitize(post);
      var errors := env.loginForm.validate(data);
      consulted := consulted + [Validation];
      alerts := alerts + errors;
      if errors != [] {
        return Halt(400);
      }
      var name := Get(data, "user_name");
      var isEmail := env.looksLikeEmail(name);
      // The email-login switch is never defined, so an email-shaped identifier always stops here.
      if isEmail {
        alerts := alerts + [LoginHandler.Invalid];
        return Halt(403);
      }
      consulted := consulted + [UserNameLookup(name)];
      assert consulted == old(consulted) + [Validation, UserNameLookup(name)];
      if name !in env.byName {
        alerts := alerts + [LoginHandler.Invalid];
        return Halt(403);
      }
      var u := env.byName[name];
      if IsZero(Get(u, "enabled")) {
        alerts := alerts + [Message(Danger, AccountDisabled)];
        return Halt(403);
      }
      if IsZero(Get(u, "active")) {
        alerts := alerts + [Message(Danger, AccountInactive)];
        return Halt(403);
      }
      consulted := consulted + [PasswordCheck];
      assert consulted == old(consulted) + ([Validation, UserNameLookup(name)] + [PasswordCheck]);
      if env.verifyPassword(u, Get(data, "password")) {
        user := u;
        guest := false;
        alerts := alerts + [Message(Success, AccountWelcome)];
        status := Done;
      } else {
        alerts := alerts + [LoginHandler.Invalid];
        status := Halt(403);
      }
    }

    /** `register`: the honeypot and three gates, then the shared error flag, then the new user and its groups. */
    method Register(env: Env, post: Fields) returns (status: Status, created: Option<Account>)
      modifies this
      ensures var r := RegisterHandler.Register(env, Model.Session(old(user), old(guest), old(captcha)), post);
        status == r.status && created == r.created && alerts == old(alerts) + r.msgs &&
        user == r.session.user && guest == r.session.guest && captcha == r.session.captcha && consulted == old(consulted) + r.consulted
    {
      if "spiderbro" !in post || Falsy(post["spiderbro"]) || post["spiderbro"] != "http://" {
        alerts := alerts + [Message(Danger, Untranslated(SpamText))];
        return Halt(500), None;
      }
      consulted := consulted + [MasterLookup];
      if env.masterId !in env.userIds {
        alerts := alerts + [Message(Danger, MasterAccountNotExists)];
        return Halt(403), None;
      }
      if Falsy(env.site.canRegister) {
        alerts := alerts + [Message(Danger, RegistrationDisabled)];
        return Halt(403), None;
      }
      if !guest {
        alerts := alerts + [Message(Danger, RegistrationLogout)];
        return Halt(200), None;
      }
      status, created := RegisterChecked(env, post);
    }

    /** The part of `register` past the gates: every check runs and raises one shared error flag; the user is created only if none did. */
    method RegisterChecked(env: Env, post: Fields) returns (status: Status, created: Option<Account>)
      modifies this
      ensures var r := RegisterHandler.Checked(env, Model.Session(old(user), old(guest), old(captcha)), post);
        status == r.status && created == r.created && alerts == old(alerts) + r.msgs &&
        user == old(user) && guest == old(guest) && captcha == old(captcha) &&
        consulted == old(consulted) + r.consulted[1..]
    {
      var data := env.registerForm.sanitize(post);
      var error;
      error, data := CheckRegistration(env, data);
      if error {
        return Halt(400), None;
      }
      var account := CreateUser(env, data);
      created := Some(account);
      if Truthy(env.site.requireActivation) {
        alerts := alerts + [Message(Success, RegistrationCompleteType2)];
      } else {
        alerts := alerts + [Message(Success, RegistrationCompleteType1)];
      }
      status := Done;
    }

    /**
     * Validation, the CAPTCHA, the rewrite of the data and both uniqueness checks: each
     * failure appends its alert and sets the shared error flag, none halts.
     */
    method CheckRegistration(env: Env, filtered: Fields) returns (error: bool, data: Fields)
      modifies this
      ensures var errors := env.registerForm.validate(filtered);
        var captchaFail := RegisterHandler.CaptchaRejected(env, old(captcha), filtered);
        var name := Lower(Trim(Get(filtered, "user_name")));
        var email := Lower(Trim(Get(filtered, "email")));
        data == RegisterHandler.Normalize(env.site, filtered) &&
        error == (errors != [] || captchaFail || name in env.byName || email in env.byEmail) &&
        alerts == old(alerts) + errors + RegisterHandler.RuleAlerts(captchaFail, name in env.byName, email in env.byEmail) &&
        consulted == old(consulted) + [Validation, UserNameLookup(name), EmailLookup(email)] &&
        user == old(user) && guest == old(guest) && captcha == old(captcha)
    {
      var invalid, captchaFail := ValidateRegistration(env, filtered);
      // `removeFields` acts on the validator's copy; `data` keeps `captcha` and `passwordc`.
      data := NormalizeData(env.site, filtered);
      ghost var a0 := old(alerts) + env.registerForm.validate(filtered);
      var nameTaken, emailTaken := CheckUnique(env, data["user_name"], data["email"]);
      RegisterHandler.RuleAlertsAppended(a0, captchaFail, nameTaken, emailTaken);
      error := invalid || captchaFail || nameTaken || emailTaken;
    }

    /** Fortress validation, then the CAPTCHA when it is enabled; both only append alerts. */
    method ValidateRegistration(env: Env, filtered: Fields) returns (invalid: bool, captchaFail: bool)
      modifies this
      ensures var errors := env.registerForm.validate(filtered);
        invalid == (errors != []) &&
        captchaFail == RegisterHandler.CaptchaRejected(env, old(captcha), filtered) &&
        alerts == old(alerts) + errors + (if captchaFail then [Message(Danger, CaptchaFail)] else []) &&
        consulted == old(consulted) + [Validation] &&
        user == old(user) && guest == old(guest) && captcha == old(captcha)
    {
      var errors := env.registerForm.validate(filtered);
      consulted := consulted + [Validation];
      alerts := alerts + errors;
      invalid := errors != [];
      captchaFail := false;
      if env.site.enableCaptcha == "1" {
        var answer := Get(filtered, "captcha");
        if Falsy(answer) || env.md5(answer) != captcha {
          alerts := alerts + [Message(Danger, CaptchaFail)];
          captchaFail := true;
        }
      }
    }

    /** The user-name check, then the email check; each appends its alert when the identifier is taken. */
    method CheckUnique(env: Env, name: string, email: string) returns (nameTaken: bool, emailTaken: bool)
      modifies this
      ensures nameTaken == (name in env.byName) && emailTaken == (email in env.byEmail)
      ensures alerts == old(alerts) + (if nameTaken then [Message(Danger, UserNameInUse)] else [])
                                    + (if emailTaken then [Message(Danger, EmailInUse)] else [])
      ensures consulted == old(consulted) + [UserNameLookup(name), EmailLookup(email)]
      ensures user == old(user) && guest == old(guest) && captcha == old(captcha)
    {
      consulted := consulted + [UserNameLookup(name)];
      nameTaken := name in env.byName;
      if nameTaken {
        alerts := alerts + [Message(Danger, UserNameInUse)];
      }
      consulted := consulted + [EmailLookup(email)];
      emailTaken := email in env.byEmail;
      if emailTaken {
        alerts := alerts + [Message(Danger, EmailInUse)];
      }
    }

    /** The new user: primary group id and title set, password hashed, then added to the primary and every default group. */
    static method CreateUser(env: Env, normalized: Fields) returns (account: Account)
      ensures account == Account(RegisterHandler.NewRecord(env, normalized),
                                 RegisterHandler.GroupsOf(env.primaryGroup.id, env.defaultGroups))
    {
      var data := normalized;
      data := data["primary_group_id" := Decimal(env.primaryGroup.id)];
      data := data["title" := env.primaryGroup.newUserTitle];
      data := data["password" := env.hashPassword(Get(data, "password"))];
      var groups := RegisterHandler.AddDefaultGroups(env.primaryGroup.id, env.defaultGroups);
      account := Account(data, groups);
    }

    /** The in-place rewrite of the filtered registration data. */
    static method NormalizeData(site: Site, filtered: Fields) returns (data: Fields)
      ensures data == RegisterHandler.Normalize(site, filtered)
      ensures data["user_name"] == Lower(Trim(Get(filtered, "user_name")))
      ensures data["email"] == Lower(Trim(Get(filtered, "email")))
    {
      data := filtered;
      data := data["user_name" := Lower(Trim(Get(data, "user_name")))];
      data := data["display_name" := Trim(Get(data, "display_name"))];
      data := data["email" := Lower(Trim(Get(data, "email")))];
      data := data["locale" := site.defaultLocale];
      if Truthy(site.requireActivation) {
        data := data["active" := "0"];
      } else {
        data := data["active" := "1"];
      }
    }

    /** `accountSettings`: page access, current password, the four settings in order, validation, then the write. */
    method AccountSettings(env: Env, post: Fields) returns (status: Status)
      modifies this
      ensures var r := SettingsHandler.Settings(env, Model.Session(old(user), old(guest), old(captcha)), post);
        status == r.status && alerts == old(alerts) + r.msgs &&
        user == r.session.user && guest == r.session.guest && captcha == r.session.captcha && consulted == old(consulted) + r.consulted
    {
      consulted := consulted + [PageAccess];
      if !env.checkAccess(user, SettingsPage, "") {
        alerts := alerts + [Message(Danger, AccessDenied)];
        return Halt(403);
      }
      var data := post - {"csrf_token"};
      if "passwordcheck" !in data {
        alerts := alerts + [Message(Danger, PasswordInvalid)];
        return Halt(403);
      }
      consulted := consulted + [PasswordCheck];
      if !env.verifyPassword(user, data["passwordcheck"]) {
        alerts := alerts + [Message(Danger, PasswordInvalid)];
        return Halt(403);
      }
      ghost var s := Model.Session(user, guest, captcha);
      ghost var c0 := old(consulted);
      assert consulted == c0 + [PageAccess, PasswordCheck];
      status := ExamineFrom(env, EmailSetting, data);
      ghost var e := SettingsHandler.Examine(env, s, data, EmailSetting);
      SettingsHandler.AfterExtends(c0, [PageAccess, PasswordCheck], e);
    }

    /**
     * The setting blocks from `p` on, in the order email, locale, display name,
     * password: each block either halts the request or hands its rewritten data to the
     * next, and after the password block come validation and the write.
     */
    method ExamineFrom(env: Env, p: Setting, data: Fields) returns (status: Status)
      modifies this
      decreases 3 - SettingsHandler.Rank(p), 1
      ensures var r := SettingsHandler.Examine(env, Model.Session(old(user), old(guest), old(captcha)), data, p);
        status == r.status && alerts == old(alerts) + r.msgs &&
        user == r.session.user && guest == r.session.guest && captcha == r.session.captcha &&
        consulted == old(consulted) + r.consulted
    {
      if p == PasswordSetting {
        status := ExaminePassword(env, data);
      } else {
        status := ExamineSetting(env, p, data);
      }
    }

    /** An email, locale or display-name block, then the blocks after it. */
    method ExamineSetting(env: Env, p: Setting, data: Fields) returns (status: Status)
      requires p != PasswordSetting
      modifies this
      decreases 3 - SettingsHandler.Rank(p), 0
      ensures var r := SettingsHandler.Examine(env, Model.Session(old(user), old(guest), old(captcha)), data, p);
        status == r.status && alerts == old(alerts) + r.msgs &&
        user == r.session.user && guest == r.session.guest && captcha == r.session.captcha &&
        consulted == old(consulted) + r.consulted
    {
      ghost var s := Model.Session(user, guest, captcha);
      ghost var a0, c0 := alerts, consulted;
      ghost var step := SettingsHandler.StepFor(env, user, data, p);
      var refusal, next := CheckSetting(env, p, data);
      if refusal.Some? {
        SettingsHandler.ExamineRefused(env, s, data, p);
        return refusal.value;
      }
      assert step.Next? && next == step.data && Model.Session(user, guest, captcha) == s;
      ghost var c1 := consulted;
      assert c1 == c0 + step.consulted && alerts == a0;
      status := ExamineFrom(env, SettingsHandler.NextSetting(p), next);
      ghost var rest := SettingsHandler.Examine(env, s, next, SettingsHandler.NextSetting(p));
      assert status == rest.status && alerts == a0 + rest.msgs && consulted == c1 + rest.consulted;
      assert user == rest.session.user && guest == rest.session.guest && captcha == rest.session.captcha;
      SettingsHandler.ExamineGoesOn(env, s, data, p);
      ghost var r := SettingsHandler.Examine(env, s, data, p);
      assert r.status == rest.status && r.msgs == rest.msgs && r.session == rest.session;
      SettingsHandler.AfterExtends(c0, step.consulted, rest);
    }

    /** The password block, then validation and the write. */
    method ExaminePassword(env: Env, data: Fields) returns (status: Status)
      modifies this
      ensures var r := SettingsHandler.Examine(env, Model.Session(old(user), old(guest), old(captcha)), data, PasswordSetting);
        status == r.status && alerts == old(alerts) + r.msgs &&
        user == r.session.user && guest == r.session.guest && captcha == r.session.captcha &&
        consulted == old(consulted) + r.consulted
    {
      ghost var s := Model.Session(user, guest, captcha);
      var refusal, next := CheckPassword(env, data);
      if refusal.Some? {
        SettingsHandler.ExamineRefused(env, s, data, PasswordSetting);
        return refusal.value;
      }
      SettingsHandler.ExamineFinishes(env, s, data);
      status := FinishSettings(env, next);
    }

    /** Validation of the rewritten data; on success the password is hashed, the control fields dropped and the rest assigned to the user. */
    method FinishSettings(env: Env, data: Fields) returns (status: Status)
      modifies this
      ensures var r := SettingsHandler.Finish(env, Model.Session(old(user), old(guest), old(captcha)), data);
        status == r.status && alerts == old(alerts) + r.msgs &&
        user == r.session.user && guest == r.session.guest && captcha == r.session.captcha && consulted == old(consulted) + r.consulted
    {
      var errors := env.settingsForm.validate(data);
      consulted := consulted + [Validation];
      alerts := alerts + errors;
      if errors != [] {
        return Halt(400);
      }
      var d := data;
      if "password" in d {
        d := d["password" := env.hashPassword(d["password"])];
      }
      d := d - {"passwordc", "passwordcheck"};
      assert d == SettingsHandler.Written(env, data);
      user := SettingsHandler.AssignFields(user, d);
      alerts := alerts + [Message(Success, SettingsUpdated)];
      status := Done;
    }

    /** The password block: a given password needs the capability for it; otherwise it and its confirmation are dropped. */
    method CheckPassword(env: Env, data: Fields) returns (refusal: Option<Status>, next: Fields)
      modifies this
      ensures var step := SettingsHandler.StepFor(env, old(user), data, PasswordSetting);
        user == old(user) && guest == old(guest) && captcha == old(captcha) && consulted == old(consulted) + step.consulted &&
        (step.Refuse? ==> refusal == Some(step.status) && alerts == old(alerts) + [step.msg]) &&
        (step.Next? ==> refusal == None && next == step.data && alerts == old(alerts))
    {
      next := data;
      if "password" in data && !Falsy(data["password"]) {
        consulted := consulted + [FieldAccess(PasswordSetting)];
        if !env.checkAccess(user, UpdateSetting, "password") {
          alerts := alerts + [Message(Danger, AccessDenied)];
          return Some(Halt(403)), next;
        }
      } else {
        next := data - {"password", "passwordc"};
      }
      refusal := None;
    }

    /**
     * One of the email, locale and display-name blocks: a setting posted with a new
     * value needs the capability for it, then an unused email or a configured locale;
     * otherwise the current value is filled in.
     */
    method CheckSetting(env: Env, p: Setting, data: Fields) returns (refusal: Option<Status>, next: Fields)
      requires p != PasswordSetting
      modifies this
      ensures var step := SettingsHandler.StepFor(env, old(user), data, p);
        user == old(user) && guest == old(guest) && captcha == old(captcha) && consulted == old(consulted) + step.consulted &&
        (step.Refuse? ==> refusal == Some(step.status) && alerts == old(alerts) + [step.msg]) &&
        (step.Next? ==> refusal == None && next == step.data && alerts == old(alerts))
    {
      var key := Key(p);
      next := data;
      if key in data && data[key] != Get(user, key) {
        consulted := consulted + [FieldAccess(p)];
        if !env.checkAccess(user, UpdateSetting, key) {
          alerts := alerts + [Message(Danger, AccessDenied)];
          return Some(Halt(403)), next;
        }
        if p == EmailSetting {
          consulted := consulted + [EmailLookup(data[key])];
          if data[key] in env.byEmail {
            alerts := alerts + [Message(Danger, EmailInUse)];
            return Some(Halt(400)), next;
          }
        } else if p == LocaleSetting {
          if data[key] !in env.site.locales {
            alerts := alerts + [Message(Danger, SpecifyLocale)];
            return Some(Halt(400)), next;
          }
        }
      } else {
        next := data[key := Get(user, key)];
      }
      refusal := None;
    }

    /** The CAPTCHA token write: the session keeps the md5 of the generated code. */
    method GenerateCaptcha(env: Env, code: string)
      modifies this
      ensures captcha == env.md5(code)
      ensures alerts == old(alerts) && user == old(user) && guest == old(guest) && consulted == old(consulted)
    {
      captcha := env.md5(code);
    }
  }
}
