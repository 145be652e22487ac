/**
 * `AccountController::accountSettings`: the decision made for one settings POST.
 *
 * Page access is checked first, then the current password; only then are the
 * settings examined, in the order email, locale, display name, password. A setting
 * that is absent or equal to the current value is filled in from the user without
 * any access check; a changed one needs its own access grant, and the first refusal
 * halts the request. On success every remaining posted key is written to the user.
 */
module SettingsHandler {
  import opened Php
  import opened Model

  /** The outcome of examining one setting: go on with the rewritten data, or refuse. */
  datatype Step =
    | Next(data: Fields, consulted: seq<Query>)
    | Refuse(status: Status, msg: Message, consulted: seq<Query>)

  /** The setting is posted with a value other than the user's current one. */
  predicate Changed(u: Record, data: Fields, p: Setting) {
    Key(p) in data && data[Key(p)] != Get(u, Key(p))
  }

  /** A new password is posted: present and not `empty()`. */
  predicate PasswordGiven(data: Fields) {
    "password" in data && !Falsy(data["password"])
  }

  /** The extra constraint on a changed, authorised setting: an unused email, a configured locale. */
  function Constraint(env: Env, p: Setting, data: Fields): Step
    requires Key(p) in data
  {
    var value := data[Key(p)];
    match p
    case EmailSetting =>
      if value in env.byEmail then Refuse(Halt(400), Message(Danger, EmailInUse), [FieldAccess(p), EmailLookup(value)])
      else Next(data, [FieldAccess(p), EmailLookup(value)])
    case LocaleSetting =>
      if value !in env.site.locales then Refuse(Halt(400), Message(Danger, SpecifyLocale), [FieldAccess(p)])
      else Next(data, [FieldAccess(p)])
    case _ => Next(data, [FieldAccess(p)])
  }

  /** Email, locale or display name: an unchanged value is filled in unchecked; a changed one needs access, then its constraint. */
  function ChangeStep(env: Env, u: Record, data: Fields, p: Setting): Step
    requires p != PasswordSetting
  {
    if Changed(u, data, p) then
      if !env.checkAccess(u, UpdateSetting, Key(p)) then
        Refuse(Halt(403), Message(Danger, AccessDenied), [FieldAccess(p)])
      else
        Constraint(env, p, data)
    else
      Next(data[Key(p) := Get(u, Key(p))], [])
  }

  /** Password: a given one needs access; otherwise `password` and `passwordc` are dropped. */
  function PasswordStep(env: Env, u: Record, data: Fields): Step {
    if PasswordGiven(data) then
      if !env.checkAccess(u, UpdateSetting, Key(PasswordSetting)) then
        Refuse(Halt(403), Message(Danger, AccessDenied), [FieldAccess(PasswordSetting)])
      else
        Next(PasswordData(data), [FieldAccess(PasswordSetting)])
    else
      Next(PasswordData(data), [])
  }

  /** The data the password step goes on with: unchanged when a password is given, else without `password` and `passwordc`. */
  function PasswordData(data: Fields): Fields {
    if PasswordGiven(data) then data else data - {"password", "passwordc"}
  }

  /** What is written to the user: the password hashed if present, `passwordc` and `passwordcheck` dropped. */
  function Written(env: Env, data: Fields): Fields {
    var hashed := if "password" in data then data["password" := env.hashPassword(data["password"])] else data;
    hashed - {"passwordc", "passwordcheck"}
  }

  /** What `accountSettings` does for `post`, starting from session `s`. */
  function Settings(env: Env, s: Session, post: Fields): (r: Response)
    ensures r.created == None && r.session.guest == s.guest && r.session.captcha == s.captcha
    ensures r.status != Done ==> r.session == s && |r.msgs| >= 1
    ensures r.status == Done ==> r.msgs == [Message(Success, SettingsUpdated)]
    ensures |r.consulted| >= 1 && r.consulted[0] == PageAccess
  {
    if !env.checkAccess(s.user, SettingsPage, "") then
      Stop(Halt(403), Message(Danger, AccessDenied), [PageAccess], s)
    else
      var data := post - {"csrf_token"};
      if "passwordcheck" !in data then
        Stop(Halt(403), Message(Danger, PasswordInvalid), [PageAccess], s)
      else if !env.verifyPassword(s.user, data["passwordcheck"]) then
        Stop(Halt(403), Message(Danger, PasswordInvalid), [PageAccess, PasswordCheck], s)
      else
        After([PageAccess, PasswordCheck], Examine(env, s, data, EmailSetting))
  }

  /** The setting examined after `p`. */
  function NextSetting(p: Setting): (q: Setting)
    requires p != PasswordSetting
    ensures Rank(q) == Rank(p) + 1
  {
    match p
    case EmailSetting => LocaleSetting
    case LocaleSetting => DisplayNameSetting
    case _ => PasswordSetting
  }

  /** The step that examines setting `p`. */
  function StepFor(env: Env, u: Record, data: Fields, p: Setting): Step {
    if p == PasswordSetting then PasswordStep(env, u, data) else ChangeStep(env, u, data, p)
  }

  /** A response with the checks `q` recorded ahead of those it already lists. */
  function After(q: seq<Query>, r: Response): Response {
    r.(consulted := q + r.consulted)
  }

  /** A trace that already holds a step's checks, extended by what comes after it. */
  lemma AfterExtends(c: seq<Query>, q: seq<Query>, r: Response)
    ensures (c + q) + r.consulted == c + After(q, r).consulted
  {
  }

  /**
   * The settings from `p` on, in the handler's order: the first refusal halts; after
   * the password, the data is validated and written.
   */
  function Examine(env: Env, s: Session, data: Fields, p: Setting): (r: Response)
    decreases 3 - Rank(p)
    ensures r.created == None && r.session.guest == s.guest && r.session.captcha == s.captcha
    ensures r.status != Done ==> r.session == s && |r.msgs| >= 1
    ensures r.status == Done ==> r.msgs == [Message(Success, SettingsUpdated)]
  {
    match StepFor(env, s.user, data, p)
    case Refuse(st, m, q) => Stop(st, m, q, s)
    case Next(d, q) =>
      After(q, if p == PasswordSetting then Finish(env, s, d) else Examine(env, s, d, NextSetting(p)))
  }

  /** Fortress validation of the rewritten data, then the write and the success alert. */
  function Finish(env: Env, s: Session, data: Fields): Response {
    var errors := env.settingsForm.validate(data);
    if errors != [] then
      Response(Halt(400), errors, [Validation], s, None)
    else
      Response(Done, [Message(Success, SettingsUpdated)], [Validation],
               s.(user := s.user + Written(env, data)), None)
  }

  /** The `foreach ($data as $name => $value) $user->$name = $value` loop. */
  method AssignFields(user: Record, data: Fields) returns (u: Record)
    ensures u.Keys == user.Keys + data.Keys
    ensures forall k :: k in data ==> u[k] == data[k]
    ensures forall k :: k in user && k !in data ==> u[k] == user[k]
    ensures u == user + data
  {
    u := user;
    var rest := data.Keys;
    while rest != {}
      invariant rest <= data.Keys
      invariant u.Keys == user.Keys + (data.Keys - rest)
      invariant forall k :: k in data && k !in rest ==> u[k] == data[k]
      invariant forall k :: k in user && (k !in data || k in rest) ==> u[k] == user[k]
      decreases rest
    {
      var k :| k in rest;
      u := u[k := data[k]];
      rest := rest - {k};
    }
    assert u.Keys == (user + data).Keys;
  }

  // ---------------------------------------------------------------------------
  // Properties

  /** Without page access the request halts with 403 before anything else is consulted. */
  lemma PageAccessFirst(env: Env, s: Session, post: Fields)
    requires !env.checkAccess(s.user, SettingsPage, "")
    ensures Settings(env, s, post) == Stop(Halt(403), Message(Danger, AccessDenied), [PageAccess], s)
  {
  }

  /** The current password must be posted and verify; otherwise 403 before any setting is examined. */
  lemma PasswordCheckBeforeSettings(env: Env, s: Session, post: Fields)
    requires env.checkAccess(s.user, SettingsPage, "")
    requires "passwordcheck" !in post || !env.verifyPassword(s.user, post["passwordcheck"])
    ensures var r := Settings(env, s, post);
      r.status == Halt(403) && r.msgs == [Message(Danger, PasswordInvalid)] && r.session == s &&
      forall q :: q in r.consulted ==> q == PageAccess || q == PasswordCheck
  {
  }

  /** The position of each setting in the order the handler examines them. */
  function Rank(p: Setting): nat {
    match p
    case EmailSetting => 0
    case LocaleSetting => 1
    case DisplayNameSetting => 2
    case PasswordSetting => 3
  }

  /** The settings whose access was checked, in the order the checks ran. */
  function Accessed(qs: seq<Query>): seq<Setting> {
    if qs == [] then []
    else (if qs[0].FieldAccess? then [qs[0].property] else []) + Accessed(qs[1..])
  }

  lemma {:induction false} AccessedAppend(a: seq<Query>, b: seq<Query>)
    ensures Accessed(a + b) == Accessed(a) + Accessed(b)
  {
    if a == [] {
      assert a + b == b;
    } else {
      assert (a + b)[1..] == a[1..] + b;
      AccessedAppend(a[1..], b);
    }
  }

  /** The access checks one step records: none, or just the one for its own setting. */
  lemma AccessedOfStep(p: Setting, v: string)
    ensures Accessed([]) == []
    ensures Accessed([FieldAccess(p)]) == [p]
    ensures Accessed([FieldAccess(p), EmailLookup(v)]) == [p]
  {
    assert [FieldAccess(p)][1..] == [];
    assert [FieldAccess(p), EmailLookup(v)][1..] == [EmailLookup(v)];
    assert [EmailLookup(v)][1..] == [];
  }

  predicate InOrder(ps: seq<Setting>) {
    forall i, j :: 0 <= i < j < |ps| ==> Rank(ps[i]) < Rank(ps[j])
  }

  /** A refused step ends the examination with its own status, alert and checks. */
  lemma ExamineRefused(env: Env, s: Session, data: Fields, p: Setting)
    requires StepFor(env, s.user, data, p).Refuse?
    ensures var step := StepFor(env, s.user, data, p);
      Examine(env, s, data, p) == Stop(step.status, step.msg, step.consulted, s)
  {
  }

  /** A step that goes on hands its data to the next setting, its checks coming first. */
  lemma ExamineGoesOn(env: Env, s: Session, data: Fields, p: Setting)
    requires p != PasswordSetting && StepFor(env, s.user, data, p).Next?
    ensures var step := StepFor(env, s.user, data, p);
      Examine(env, s, data, p) == After(step.consulted, Examine(env, s, step.data, NextSetting(p)))
  {
  }

  /** After the password step come validation and the write. */
  lemma ExamineFinishes(env: Env, s: Session, data: Fields)
    requires StepFor(env, s.user, data, PasswordSetting).Next?
    ensures var step := StepFor(env, s.user, data, PasswordSetting);
      Examine(env, s, data, PasswordSetting) == After(step.consulted, Finish(env, s, step.data))
  {
  }

  /** Only the setting a step examines can have its access checked by that step. */
  lemma StepAccesses(env: Env, u: Record, data: Fields, p: Setting)
    ensures var q := StepFor(env, u, data, p).consulted;
      Accessed(q) == [] || Accessed(q) == [p]
  {
    AccessedOfStep(p, Get(data, Key(p)));
  }

  /** One examination step: halt on its refusal, else validate after the password, else go on with the next setting. */
  lemma ExamineUnfold(env: Env, s: Session, data: Fields, p: Setting)
    ensures var step := StepFor(env, s.user, data, p);
      Examine(env, s, data, p) ==
        if step.Refuse? then Stop(step.status, step.msg, step.consulted, s)
        else After(step.consulted, if p == PasswordSetting then Finish(env, s, step.data)
                                   else Examine(env, s, step.data, NextSetting(p)))
  {
  }

  /** Every setting in `ps` ranks at least `n`. */
  predicate RankedFrom(ps: seq<Setting>, n: nat) {
    forall x :: x in ps ==> Rank(x) >= n
  }

  /** Putting nothing or the setting `p` ahead of an ordered run ranked above `p` keeps it ordered. */
  lemma Prepend(qs: seq<Setting>, ps: seq<Setting>, p: Setting)
    requires qs == [] || qs == [p]
    requires InOrder(ps) && RankedFrom(ps, Rank(p) + 1)
    ensures InOrder(qs + ps) && RankedFrom(qs + ps, Rank(p))
  {
    var r := qs + ps;
    forall i, j | 0 <= i < j < |r|
      ensures Rank(r[i]) < Rank(r[j])
    {
      if i < |qs| {
        assert r[j] in ps;
      } else {
        assert r[i] == ps[i - |qs|] && r[j] == ps[j - |qs|];
      }
    }
  }

  /** From any setting on, access checks run in order and only for that setting and later ones. */
  lemma {:induction false} ExamineInOrder(env: Env, s: Session, data: Fields, p: Setting)
    ensures var a := Accessed(Examine(env, s, data, p).consulted);
      InOrder(a) && RankedFrom(a, Rank(p))
    decreases 3 - Rank(p)
  {
    var step := StepFor(env, s.user, data, p);
    StepAccesses(env, s.user, data, p);
    ExamineUnfold(env, s, data, p);
    if step.Next? {
      var rest := if p == PasswordSetting then Finish(env, s, step.data) else Examine(env, s, step.data, NextSetting(p));
      if p == PasswordSetting {
        assert Accessed([Validation]) == [] by {
          assert [Validation][1..] == [];
        }
      } else {
        ExamineInOrder(env, s, step.data, NextSetting(p));
      }
      AccessedAppend(step.consulted, rest.consulted);
      Prepend(Accessed(step.consulted), Accessed(rest.consulted), p);
    }
  }

  /**
   * Access checks run in the order email, locale, display name, password, each at most
   * once: the checked settings form an increasing subsequence of that order.
   */
  lemma SettingsExaminedInOrder(env: Env, s: Session, post: Fields)
    ensures InOrder(Accessed(Settings(env, s, post).consulted))
  {
    var r := Settings(env, s, post);
    if env.checkAccess(s.user, SettingsPage, "") && "passwordcheck" in post &&
       env.verifyPassword(s.user, post["passwordcheck"]) {
      var q0 := [PageAccess, PasswordCheck];
      assert Accessed(q0) == [] by {
        assert q0[1..] == [PasswordCheck];
        assert q0[1..][1..] == [];
      }
      var e := Examine(env, s, post - {"csrf_token"}, EmailSetting);
      ExamineInOrder(env, s, post - {"csrf_token"}, EmailSetting);
      AccessedAppend(q0, e.consulted);
    } else {
      assert [PageAccess][1..] == [];
      assert [PageAccess, PasswordCheck][1..] == [PasswordCheck];
      assert [PasswordCheck][1..] == [];
    }
  }

  /**
   * Changing the email without the capability for it is refused with 403 and
   * `ACCESS_DENIED`; the user is left as it was and no later setting, the display
   * name included, is examined.
   */
  lemma EmailChangeDenied(env: Env, s: Session, post: Fields)
    requires env.checkAccess(s.user, SettingsPage, "")
    requires "passwordcheck" in post && env.verifyPassword(s.user, post["passwordcheck"])
    requires Changed(s.user, post, EmailSetting) && !env.checkAccess(s.user, UpdateSetting, "email")
    ensures var r := Settings(env, s, post);
      r.status == Halt(403) && r.msgs == [Message(Danger, AccessDenied)] && r.session == s &&
      r.consulted == [PageAccess, PasswordCheck, FieldAccess(EmailSetting)]
  {
  }

  /** A changed, authorised email is checked for use exactly as posted, not lower-cased, and an address in use halts with 400. */
  lemma EmailUseCheckedRaw(env: Env, s: Session, post: Fields)
    requires env.checkAccess(s.user, SettingsPage, "")
    requires "passwordcheck" in post && env.verifyPassword(s.user, post["passwordcheck"])
    requires Changed(s.user, post, EmailSetting) && env.checkAccess(s.user, UpdateSetting, "email")
    ensures var r := Settings(env, s, post);
      EmailLookup(post["email"]) in r.consulted &&
      (post["email"] in env.byEmail ==> r.status == Halt(400) && r.msgs == [Message(Danger, EmailInUse)])
  {
    var data := post - {"csrf_token"};
    var step := StepFor(env, s.user, data, EmailSetting);
    assert step.consulted == [FieldAccess(EmailSetting), EmailLookup(post["email"])];
    var e := Examine(env, s, data, EmailSetting);
    if step.Refuse? {
      ExamineRefused(env, s, data, EmailSetting);
    } else {
      ExamineGoesOn(env, s, data, EmailSetting);
    }
    assert e.consulted[1] == EmailLookup(post["email"]);
    var r := Settings(env, s, post);
    assert r == After([PageAccess, PasswordCheck], e);
    assert r.consulted[3] == e.consulted[1];
  }

  /**
   * Once the email step goes on, whether the email was unchanged or changed, authorised
   * and unused, a changed, authorised locale outside the configured set halts with 400.
   */
  lemma UnknownLocaleRefused(env: Env, s: Session, post: Fields)
    requires env.checkAccess(s.user, SettingsPage, "")
    requires "passwordcheck" in post && env.verifyPassword(s.user, post["passwordcheck"])
    requires StepFor(env, s.user, post - {"csrf_token"}, EmailSetting).Next?
    requires Changed(s.user, post, LocaleSetting) && env.checkAccess(s.user, UpdateSetting, "locale")
    requires post["locale"] !in env.site.locales
    ensures var r := Settings(env, s, post);
      r.status == Halt(400) && r.msgs == [Message(Danger, SpecifyLocale)] && r.session == s
  {
    var data := post - {"csrf_token"};
    var step := StepFor(env, s.user, data, EmailSetting);
    ChangeStepData(env, s.user, data, EmailSetting);
    assert step.data["locale"] == post["locale"];
    ExamineGoesOn(env, s, data, EmailSetting);
    ExamineRefused(env, s, step.data, LocaleSetting);
  }

  /** The keys written on success: everything posted except the control fields, the three defaulted settings, and the password only when one is given. */
  function WrittenKeys(post: Fields): set<string> {
    (post.Keys - {"csrf_token", "passwordc", "passwordcheck"} - (if PasswordGiven(post) then {} else {"password"}))
      + {"email", "locale", "display_name"}
  }

  /**
   * The update a successful request applies, stated independently of the steps: each
   * written key takes its posted value, except the password, which is hashed, and an
   * unposted email, locale or display name, which keeps the current value.
   */
  function Update(env: Env, u: Record, post: Fields): Fields {
    map k | k in WrittenKeys(post) ::
      if k == "password" then env.hashPassword(post[k])
      else if k in post then post[k]
      else Get(u, k)
  }

  /** The value a setting has after its step: the posted one, or the user's current one when not posted. */
  function Filled(u: Record, data: Fields, k: string): string {
    if k in data then data[k] else Get(u, k)
  }

  /** A step that goes on leaves the data as it was, except that its setting is filled in. */
  lemma ChangeStepData(env: Env, u: Record, data: Fields, p: Setting)
    requires p != PasswordSetting && ChangeStep(env, u, data, p).Next?
    ensures ChangeStep(env, u, data, p).data == data[Key(p) := Filled(u, data, Key(p))]
  {
    if Changed(u, data, p) {
      assert data[Key(p) := data[Key(p)]] == data;
    }
  }

  /** The data once the settings from `p` up to the display name are filled in. */
  function FillFrom(u: Record, data: Fields, p: Setting): Fields
    decreases 3 - Rank(p)
  {
    if p == PasswordSetting then data
    else FillFrom(u, data[Key(p) := Filled(u, data, Key(p))], NextSetting(p))
  }

  /** A successful examination from `p` on writes the filled-in data after the password step. */
  lemma {:induction false} ExamineWrites(env: Env, s: Session, data: Fields, p: Setting)
    requires Examine(env, s, data, p).status == Done
    ensures Examine(env, s, data, p).session.user ==
      s.user + Written(env, PasswordData(FillFrom(s.user, data, p)))
    decreases 3 - Rank(p)
  {
    ExamineUnfold(env, s, data, p);
    if p == PasswordSetting {
      var step := PasswordStep(env, s.user, data);
      assert step.Next? && step.data == PasswordData(data);
    } else {
      var step := ChangeStep(env, s.user, data, p);
      ChangeStepData(env, s.user, data, p);
      ExamineWrites(env, s, step.data, NextSetting(p));
    }
  }

  /** The three settings filled in: each present, with its posted or current value; every other key as posted. */
  function FillAll(u: Record, data: Fields): Fields {
    map k | k in data.Keys + {"email", "locale", "display_name"} :: Filled(u, data, k)
  }

  lemma FillFromEmail(u: Record, data: Fields)
    ensures FillFrom(u, data, EmailSetting) == FillAll(u, data)
  {
    var d1 := data["email" := Filled(u, data, "email")];
    var d2 := d1["locale" := Filled(u, d1, "locale")];
    var d3 := d2["display_name" := Filled(u, d2, "display_name")];
    assert FillFrom(u, data, EmailSetting) == d3;
    var f := FillAll(u, data);
    assert d3.Keys == f.Keys;
    forall k | k in d3
      ensures d3[k] == f[k]
    {
    }
  }

  /** Each key written after the filling and the password step, and its value. */
  lemma WrittenAt(env: Env, u: Record, post: Fields, k: string)
    ensures var w := Written(env, PasswordData(FillAll(u, post - {"csrf_token"})));
      (k in w <==> k in WrittenKeys(post)) &&
      (k in w ==> w[k] == if k == "password" then env.hashPassword(post[k]) else Filled(u, post, k))
  {
    var data := post - {"csrf_token"};
    var f := FillAll(u, data);
    assert PasswordGiven(f) == PasswordGiven(post);
    if k == "password" && PasswordGiven(post) {
      assert f[k] == post[k];
    }
  }

  /** Writing the filled-in data after the password step is exactly `Update`. */
  lemma WrittenIsUpdate(env: Env, u: Record, post: Fields)
    ensures Written(env, PasswordData(FillAll(u, post - {"csrf_token"}))) == Update(env, u, post)
  {
    var w := Written(env, PasswordData(FillAll(u, post - {"csrf_token"})));
    var upd := Update(env, u, post);
    forall k
      ensures (k in w <==> k in upd) && (k in w ==> w[k] == upd[k])
    {
      WrittenAt(env, u, post, k);
    }
    assert w.Keys == upd.Keys;
  }

  /**
   * On success the user becomes the old user overwritten by `Update`: every posted
   * key except `csrf_token`, `passwordc` and `passwordcheck` is written, the password
   * hashed and only when given, and ACCOUNT_SETTINGS_UPDATED is the one alert.
   */
  lemma SuccessWrites(env: Env, s: Session, post: Fields)
    requires Settings(env, s, post).status == Done
    ensures var r := Settings(env, s, post);
      r.session.user == s.user + Update(env, s.user, post) &&
      r.msgs == [Message(Success, SettingsUpdated)]
  {
    var data := post - {"csrf_token"};
    ExamineWrites(env, s, data, EmailSetting);
    FillFromEmail(s.user, data);
    WrittenIsUpdate(env, s.user, post);
  }

  /** The checks one step records: its own setting's access check, and for the email the address lookup. */
  lemma StepQueries(env: Env, u: Record, data: Fields, p: Setting)
    ensures forall x :: x in StepFor(env, u, data, p).consulted ==> x == FieldAccess(p) || x.EmailLookup?
  {
  }

  /** A step that goes on touches no setting other than its own. */
  lemma StepKeepsOthers(env: Env, u: Record, data: Fields, p: Setting, q: Setting)
    requires StepFor(env, u, data, p).Next? && q != p && q != PasswordSetting
    ensures Changed(u, StepFor(env, u, data, p).data, q) == Changed(u, data, q)
  {
    if p != PasswordSetting {
      ChangeStepData(env, u, data, p);
    }
  }

  /** An unchanged setting stays unchecked through the rest of the examination. */
  lemma {:induction false} ExamineSkipsUnchanged(env: Env, s: Session, data: Fields, p: Setting, q: Setting)
    requires q != PasswordSetting && !Changed(s.user, data, q)
    ensures FieldAccess(q) !in Examine(env, s, data, p).consulted
    decreases 3 - Rank(p)
  {
    var step := StepFor(env, s.user, data, p);
    StepQueries(env, s.user, data, p);
    ExamineUnfold(env, s, data, p);
    if p == q {
      assert step.Next? && step.consulted == [];
    }
    if step.Next? {
      if p == PasswordSetting {
        assert FieldAccess(q) !in step.consulted + [Validation];
      } else {
        if p == q {
          assert !Changed(s.user, step.data, q) by {
            ChangeStepData(env, s.user, data, p);
          }
        } else {
          StepKeepsOthers(env, s.user, data, p, q);
        }
        ExamineSkipsUnchanged(env, s, step.data, NextSetting(p), q);
      }
    }
  }

  /**
   * A setting posted unchanged, or not posted, is never access-checked and keeps its
   * current value.
   */
  lemma UnchangedNotChecked(env: Env, s: Session, post: Fields, p: Setting)
    requires p != PasswordSetting && !Changed(s.user, post, p)
    ensures var r := Settings(env, s, post);
      FieldAccess(p) !in r.consulted &&
      (r.status == Done ==> Key(p) in r.session.user && r.session.user[Key(p)] == Get(s.user, Key(p)))
  {
    var r := Settings(env, s, post);
    var data := post - {"csrf_token"};
    assert !Changed(s.user, data, p);
    if env.checkAccess(s.user, SettingsPage, "") && "passwordcheck" in data &&
       env.verifyPassword(s.user, data["passwordcheck"]) {
      ExamineSkipsUnchanged(env, s, data, EmailSetting, p);
    }
    if r.status == Done {
      SuccessWrites(env, s, post);
      assert Key(p) in WrittenKeys(post);
    }
  }
}
