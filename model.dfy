/**
 * The values the account controller's POST handlers work on, and the snapshot of
 * collaborators (user and group loaders, site settings, Fortress forms, password
 * hashing, access control) each handler is given.
 */
module Model {

  datatype Option<+T> = None | Some(value: T)

  /** A posted or filtered field map: field name to submitted string. */
  type Fields = map<string, string>

  /** A user object's properties by name; ids and flags are held as their decimal strings. */
  type Record = map<string, string>

  /** Reads a property or a posted field; a missing one is PHP null, read as "". */
  function Get(m: map<string, string>, key: string): string {
    if key in m then m[key] else ""
  }

  datatype Severity = Success | Warning | Danger

  /** The message codes the controller appends (parameters are not modelled). */
  datatype Code =
    | LoginAlreadyComplete | UserOrPassInvalid | AccountDisabled | AccountInactive | AccountWelcome
    | MasterAccountNotExists | RegistrationDisabled | RegistrationLogout | CaptchaFail
    | UserNameInUse | EmailInUse | RegistrationCompleteType1 | RegistrationCompleteType2
    | AccessDenied | PasswordInvalid | SpecifyLocale | SettingsUpdated
    | Untranslated(text: string)  // addMessage with literal text
    | FormError(text: string)     // an alert raised by Fortress validation

  /** One entry of the alert stream. */
  datatype Message = Message(severity: Severity, code: Code)

  /** The text of the honeypot refusal, which deliberately names no reason. */
  const SpamText := "Aww hellllls no!"

  /** How a handler ends: it returns normally, or the application halts with an HTTP status. */
  datatype Status = Done | Halt(code: int)

  /** A collaborator consultation, recorded so that the order of checks can be stated. */
  datatype Query =
    | MasterLookup                  // UserLoader::exists(user_id_master)
    | Validation                    // $rf->validate(...)
    | UserNameLookup(name: string)  // UserLoader::fetch / exists by user_name
    | EmailLookup(email: string)    // UserLoader::exists by email
    | PasswordCheck                 // $user->login(...) or $user->verifyPassword(...)
    | PageAccess                    // checkAccess('uri_account_settings')
    | FieldAccess(property: Setting) // checkAccess('update_account_setting', property)

  /** The four account settings a user may ask to change, each guarded by its own access check. */
  datatype Setting = EmailSetting | LocaleSetting | DisplayNameSetting | PasswordSetting

  /** The posted field and user property a setting is stored under. */
  function Key(p: Setting): string {
    match p
    case EmailSetting => "email"
    case LocaleSetting => "locale"
    case DisplayNameSetting => "display_name"
    case PasswordSetting => "password"
  }

  /** A Fortress request schema: its sanitizer and its validator, which reports field errors as alerts. */
  datatype Form = Form(sanitize: Fields -> Fields, validate: Fields -> seq<Message>)

  /** Site settings as stored: `can_register` and `require_activation` are tested for truthiness, `enable_captcha` against "1". */
  datatype Site = Site(
    canRegister: string,
    enableCaptcha: string,
    requireActivation: string,
    defaultLocale: string,
    locales: seq<string>)

  datatype Group = Group(id: nat, newUserTitle: string)

  /** Everything a handler consults that lies outside the controller. */
  datatype Env = Env(
    userIds: set<nat>,                        // ids of existing users
    masterId: nat,                            // config 'user_id_master'
    byName: map<string, Record>,              // existing users by user_name
    byEmail: map<string, Record>,             // existing users by email
    site: Site,
    loginForm: Form,
    registerForm: Form,
    settingsForm: Form,
    looksLikeEmail: string -> bool,           // filter_var(_, FILTER_VALIDATE_EMAIL)
    md5: string -> string,
    hashPassword: string -> string,           // Authentication::hashPassword
    verifyPassword: (Record, string) -> bool, // $user->login / $user->verifyPassword
    checkAccess: (Record, string, string) -> bool, // (acting user, hook, property)
    primaryGroup: Group,                      // GroupLoader::fetch(GROUP_DEFAULT_PRIMARY, "is_default")
    defaultGroups: seq<nat>)                  // ids of GroupLoader::fetchAll(GROUP_DEFAULT, "is_default")

  /** The request-scoped session: the current user, whether it is the guest, the stored CAPTCHA hash ("" when unset). */
  datatype Session = Session(user: Record, guest: bool, captcha: string)

  /** A user created by registration, with the ids of the groups it was added to. */
  datatype Account = Account(record: Record, groups: set<nat>)

  /** What one handler call produced: its ending, the alerts it appended, the collaborators it consulted, the new session and any created account. */
  datatype Response = Response(
    status: Status,
    msgs: seq<Message>,
    consulted: seq<Query>,
    session: Session,
    created: Option<Account>)

  /** A halting response that appends one alert and leaves the session as it was. */
  function Stop(status: Status, msg: Message, consulted: seq<Query>, s: Session): Response {
    Response(status, [msg], consulted, s, None)
  }

  /** The hook names passed to checkAccess. */
  const SettingsPage := "uri_account_settings"
  const UpdateSetting := "update_account_setting"

}
