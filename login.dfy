/**
 * `AccountController::login`: the decision made for one login POST.
 *
 * The identifier is looked up by user name only. The email-login switch the code
 * tests is never defined, so it reads as null and every email-shaped identifier is
 * refused with the generic credentials message; the lookup-by-email branch is dead.
 */
module LoginHandler {
  import opened Php
  import opened Model

  /** The generic refusal: wrong user name, wrong password and email-shaped identifier alike. */
  const Invalid := Message(Danger, UserOrPassInvalid)

  /** What `login` does for `post`, starting from session `s`. */
  function Login(env: Env, s: Session, post: Fields): (r: Response)
    ensures r.created == None && r.session.captcha == s.captcha
    ensures r.status == Done <==> r.session != s
    ensures r.status == Done ==> !r.session.guest && r.msgs == [Message(Success, AccountWelcome)]
  {
    if !s.guest then
      Stop(Halt(200), Message(Warning, LoginAlreadyComplete), [], s)
    else
      var data := env.loginForm.sanitize(post);
      var errors := env.loginForm.validate(data);
      if errors != [] then
        Response(Halt(400), errors, [Validation], s, None)
      else
        var name := Get(data, "user_name");
        if env.looksLikeEmail(name) then
          Stop(Halt(403), Invalid, [Validation], s)
        else if name !in env.byName then
          Stop(Halt(403), Invalid, [Validation, UserNameLookup(name)], s)
        else
          var u := env.byName[name];
          var looked := [Validation, UserNameLookup(name)];
          if IsZero(Get(u, "enabled")) then
            Stop(Halt(403), Message(Danger, AccountDisabled), looked, s)
          else if IsZero(Get(u, "active")) then
            Stop(Halt(403), Message(Danger, AccountInactive), looked, s)
          else if env.verifyPassword(u, Get(data, "password")) then
            Response(Done, [Message(Success, AccountWelcome)], looked + [PasswordCheck],
                     s.(user := u, guest := false), None)
          else
            Stop(Halt(403), Invalid, looked + [PasswordCheck], s)
  }

  /** The form data `login` works on once it is past the logged-in guard. */
  function LoginData(env: Env, post: Fields): Fields {
    env.loginForm.sanitize(post)
  }

  /** The request passed Fortress validation. */
  predicate Valid(env: Env, post: Fields) {
    env.loginForm.validate(LoginData(env, post)) == []
  }

  /** An already logged-in user gets a warning and status 200 before anything is validated or looked up. */
  lemma AlreadyLoggedInFirst(env: Env, s: Session, post: Fields)
    requires !s.guest
    ensures var r := Login(env, s, post);
      r.status == Halt(200) && r.msgs == [Message(Warning, LoginAlreadyComplete)] &&
      r.consulted == [] && r.session == s
  {
  }

  /** Invalid form data halts with 400 carrying exactly the validator's alerts, before any lookup. */
  lemma InvalidFormHalts(env: Env, s: Session, post: Fields)
    requires s.guest && !Valid(env, post)
    ensures var r := Login(env, s, post);
      r.status == Halt(400) && r.msgs == env.loginForm.validate(LoginData(env, post)) &&
      r.consulted == [Validation] && r.session == s
  {
  }

  /** A guest's valid request whose identifier is unknown, email-shaped, or whose password is wrong. */
  predicate BadCredentials(env: Env, post: Fields) {
    var data := LoginData(env, post);
    var name := Get(data, "user_name");
    env.looksLikeEmail(name) || name !in env.byName ||
    (var u := env.byName[name];
     !IsZero(Get(u, "enabled")) && !IsZero(Get(u, "active")) &&
     !env.verifyPassword(u, Get(data, "password")))
  }

  /**
   * Enumeration resistance for credentials: the response is the single generic
   * `ACCOUNT_USER_OR_PASS_INVALID` with 403 exactly when the identifier is unknown,
   * email-shaped, or the password is wrong.
   */
  lemma GenericRefusalIff(env: Env, s: Session, post: Fields)
    requires s.guest && Valid(env, post)
    ensures var r := Login(env, s, post);
      (r.status == Halt(403) && r.msgs == [Invalid]) <==> BadCredentials(env, post)
    ensures BadCredentials(env, post) ==> Login(env, s, post).session == s
  {
  }

  /** An unknown user name and a known one with a wrong password cannot be told apart by status or alerts. */
  lemma UnknownUserLooksLikeWrongPassword(env1: Env, env2: Env, s: Session, post: Fields)
    requires s.guest
    requires env1.loginForm == env2.loginForm && env1.looksLikeEmail == env2.looksLikeEmail
    requires Valid(env1, post)
    requires var name := Get(LoginData(env1, post), "user_name");
      !env1.looksLikeEmail(name) && name !in env1.byName && name in env2.byName &&
      !IsZero(Get(env2.byName[name], "enabled")) && !IsZero(Get(env2.byName[name], "active")) &&
      !env2.verifyPassword(env2.byName[name], Get(LoginData(env2, post), "password"))
    ensures Login(env1, s, post).status == Login(env2, s, post).status == Halt(403)
    ensures Login(env1, s, post).msgs == Login(env2, s, post).msgs == [Invalid]
  {
  }

  /** Any email-shaped identifier is refused generically, before any user is looked up. */
  lemma EmailIdentifierRefused(env: Env, s: Session, post: Fields)
    requires s.guest && Valid(env, post)
    requires env.looksLikeEmail(Get(LoginData(env, post), "user_name"))
    ensures var r := Login(env, s, post);
      r.status == Halt(403) && r.msgs == [Invalid] && r.consulted == [Validation]
  {
  }

  /**
   * Account state is checked after lookup and before the password: a disabled account
   * gets `ACCOUNT_DISABLED` whatever its activation, an enabled but inactive one
   * `ACCOUNT_INACTIVE`; neither reaches the password check.
   */
  lemma DisabledBeforeInactive(env: Env, s: Session, post: Fields)
    requires s.guest && Valid(env, post)
    requires var name := Get(LoginData(env, post), "user_name");
      !env.looksLikeEmail(name) && name in env.byName
    ensures var name := Get(LoginData(env, post), "user_name");
      var u := env.byName[name];
      var r := Login(env, s, post);
      (IsZero(Get(u, "enabled")) ==> r.msgs == [Message(Danger, AccountDisabled)]) &&
      (!IsZero(Get(u, "enabled")) && IsZero(Get(u, "active")) ==> r.msgs == [Message(Danger, AccountInactive)]) &&
      (IsZero(Get(u, "enabled")) || IsZero(Get(u, "active")) ==>
         r.status == Halt(403) && PasswordCheck !in r.consulted && r.session == s)
  {
  }

  /**
   * Only a correct password for an enabled, active account binds the session, and it
   * binds exactly the user loaded by that user name.
   */
  lemma OnlyCorrectPasswordBinds(env: Env, s: Session, post: Fields)
    ensures var data := LoginData(env, post);
      var name := Get(data, "user_name");
      var r := Login(env, s, post);
      r.status == Done <==>
        (s.guest && Valid(env, post) && !env.looksLikeEmail(name) && name in env.byName &&
         !IsZero(Get(env.byName[name], "enabled")) && !IsZero(Get(env.byName[name], "active")) &&
         env.verifyPassword(env.byName[name], Get(data, "password")))
    ensures var name := Get(LoginData(env, post), "user_name");
      var r := Login(env, s, post);
      r.status == Done ==> name in env.byName && r.session.user == env.byName[name] && !r.session.guest
  {
  }
}
