/** The login page: the order of the registration checks, the handle field's
    normalisation, and the messages the sign-in and registration handlers
    show for each way they can end. */
module Login {
  import opened Types
  import opened Strings
  import opened Database
  import opened Email

  const AllFieldsRequired := "Semua kolom harus diisi."
  const InvalidEmail := "Email tidak valid."
  const ShortPassword := "Password minimal 6 karakter."
  const MinPasswordLength := 6

  const InvalidCredentials := "Invalid login credentials"
  const WrongCredentials := "Email atau password salah."
  const NoUserData := "Gagal mengambil data user."
  const NoProfile := "Profil tidak ditemukan. Pastikan Anda sudah terdaftar dengan benar."
  const LoginFailed := "Login gagal."

  const SignUpNoUser := "Gagal mendaftarkan user."
  const ProfileNotSaved := "Gagal menyimpan profil."
  const ForeignKeyViolation := "violates foreign key constraint"
  const ForeignKeyAdvice := "Gagal menyambungkan profil. Hubungi Admin untuk mematikan 'Email Confirmation' di Supabase."
  const RegisterFailed := "Pendaftaran gagal."
  const Registered := "Pendaftaran berhasil! Mengalihkan..."

  datatype RegisterData = RegisterData(displayName: string, username: string, email: string, password: string)

  /** The field checks of `handleRegisterSubmit`, in their order; none when
      all pass. */
  function RegisterCheck(d: RegisterData): (r: Option<string>)
    ensures r == Some(AllFieldsRequired) <==> d.displayName == "" || d.username == "" || d.email == "" || d.password == ""
    ensures r == Some(InvalidEmail) <==>
              d.displayName != "" && d.username != "" && d.email != "" && d.password != "" && !EmailShape(d.email)
    ensures r == Some(ShortPassword) <==>
              d.displayName != "" && d.username != "" && d.password != "" && EmailShape(d.email) && |d.password| < MinPasswordLength
    ensures r.None? <==>
              d.displayName != "" && d.username != "" && EmailShape(d.email) && |d.password| >= MinPasswordLength
  {
    if d.displayName == "" || d.username == "" || d.email == "" || d.password == "" then Some(AllFieldsRequired)
    else if !ValidateEmail(d.email) then Some(InvalidEmail)
    else if |d.password| < MinPasswordLength then Some(ShortPassword)
    else None
  }

  /** The handle field's change handler: every whitespace character is
      removed and the rest lower-cased. */
  function UsernameInput(raw: string): (r: string)
    ensures forall i :: 0 <= i < |r| ==> !IsSpace(r[i]) && !IsAsciiUpper(r[i])
    ensures r == NormalizeUsername(raw)
  {
    LowerRemoveSpacesCommute(raw);
    Lower(RemoveSpaces(raw))
  }

  /** What the field holds is already the stored form of the handle. */
  lemma UsernameInputIsStored(raw: string)
    ensures NormalizeUsername(UsernameInput(raw)) == UsernameInput(raw)
  {
    NormalizeUsernameIdempotent(raw);
  }

  /** Through the form, the name `createProfile` checks for conflicts is the
      name it stores. */
  lemma RegisterFormAgrees(b: Backend, uid: string, raw: string, displayName: string, now: int)
    ensures CreateProfile(b, uid, UsernameInput(raw), displayName, now)
         == CreateProfileChecked(b, uid, UsernameInput(raw), displayName, now)
  {
    UsernameInputIsStored(raw);
    CreateProfileAgreesOnNormalNames(b, uid, UsernameInput(raw), displayName, now);
  }

  /** A text shorter than the pattern cannot contain it. */
  lemma ShortTextLacks(s: string, t: string)
    requires |s| < |t|
    ensures !Contains(s, t)
  {
  }

  /** `x || fallback` for an error message. */
  function OrFallback(m: string, fallback: string): (r: string)
    ensures r != "" || fallback == ""
    ensures m != "" ==> r == m
  {
    if m == "" then fallback else m
  }

  /** The registration handler's catch block: a foreign-key violation is
      replaced by advice, and an empty message by the generic failure. */
  function FriendlyRegisterError(m: string): (r: string)
    ensures r != ""
    ensures Contains(m, ForeignKeyViolation) ==> r == ForeignKeyAdvice
    ensures !Contains(m, ForeignKeyViolation) ==> r == OrFallback(m, RegisterFailed)
  {
    OrFallback(if Contains(m, ForeignKeyViolation) then ForeignKeyAdvice else m, RegisterFailed)
  }

  /** The validation messages reach the page unchanged. */
  lemma ValidationMessagesShown(d: RegisterData)
    requires RegisterCheck(d).Some?
    ensures FriendlyRegisterError(RegisterCheck(d).value) == RegisterCheck(d).value
  {
    ShortTextLacks(RegisterCheck(d).value, ForeignKeyViolation);
  }

  /** The answer of the authentication service to a sign-in or sign-up. */
  datatype AuthResponse = AuthError(message: string) | NoUser | AuthUser(id: string)

  datatype Outcome = Succeeded(user: User) | Denied(message: string)

  /** `handleLoginSubmit`; `profile` is what `db.getProfile` returns for the
      authenticated id. */
  function LoginOutcome(auth: AuthResponse, profile: Option<User>): (r: Outcome)
    ensures r.Succeeded? <==> auth.AuthUser? && profile.Some?
    ensures r.Succeeded? ==> r.user == profile.value
    ensures r.Denied? ==> r.message != ""
    ensures auth.AuthError? && Contains(auth.message, InvalidCredentials) ==> r == Denied(WrongCredentials)
    ensures auth.AuthError? && !Contains(auth.message, InvalidCredentials) ==> r == Denied(OrFallback(auth.message, LoginFailed))
    ensures auth.NoUser? ==> r == Denied(NoUserData)
    ensures auth.AuthUser? && profile.None? ==> r == Denied(NoProfile)
  {
    match auth
    case AuthError(m) =>
      Denied(OrFallback(if Contains(m, InvalidCredentials) then WrongCredentials else m, LoginFailed))
    case NoUser => Denied(NoUserData)
    case AuthUser(_) =>
      if profile.None? then Denied(NoProfile) else Succeeded(profile.value)
  }

  /** `handleRegisterSubmit`: the field checks, the sign-up, then the
      profile. Every failure message passes through the friendly mapping.
      The handle is in stored form, as the form's change handler leaves it,
      so the profile step that `createProfile` as written takes is the same
      as the checked one used here. */
  function RegisterOutcome(d: RegisterData, signUp: AuthResponse, b: Backend, now: int): (r: Outcome)
    requires NormalizeUsername(d.username) == d.username
    ensures signUp.AuthUser? ==>
              CreateProfileChecked(b, signUp.id, d.username, d.displayName, now)
              == CreateProfile(b, signUp.id, d.username, d.displayName, now)
    ensures RegisterCheck(d).Some? ==> r == Denied(RegisterCheck(d).value)
    ensures r.Succeeded? <==>
              RegisterCheck(d).None? && signUp.AuthUser?
              && CreateProfileChecked(b, signUp.id, d.username, d.displayName, now).Created?
    ensures r.Succeeded? ==>
              r.user == CreateProfileChecked(b, signUp.id, d.username, d.displayName, now).user
              && r.user.uid == signUp.id && r.user.username == NormalizeUsername(d.username)
    ensures r.Denied? ==> r.message != ""
    ensures RegisterCheck(d).None? && signUp.AuthError? ==> r == Denied(FriendlyRegisterError(signUp.message))
    ensures RegisterCheck(d).None? && signUp.NoUser? ==> r == Denied(SignUpNoUser)
  {
    var check := RegisterCheck(d);
    assert Lower(d.username) == d.username;
    if check.Some? then
      ValidationMessagesShown(d);
      Denied(FriendlyRegisterError(check.value))
    else
      match signUp
      case AuthError(m) => Denied(FriendlyRegisterError(m))
      case NoUser =>
        ShortTextLacks(SignUpNoUser, ForeignKeyViolation);
        Denied(FriendlyRegisterError(SignUpNoUser))
      case AuthUser(uid) =>
        match CreateProfileChecked(b, uid, d.username, d.displayName, now)
        case NotConfigured => Denied(FriendlyRegisterError(ProfileNotSaved))
        case Failed(e) => Denied(FriendlyRegisterError(e.Text()))
        case Created(u) => Succeeded(u)
  }

  class LoginPageState {
    var isLoading: bool
    var error: string
    var registerData: RegisterData

    /** The handle field only ever holds a stored-form handle. */
    predicate Valid()
      reads this
    {
      NormalizeUsername(registerData.username) == registerData.username
    }

    constructor ()
      ensures !isLoading && error == ""
      ensures registerData == RegisterData("", "", "", "")
      ensures Valid()
    {
      isLoading := false;
      error := "";
      registerData := RegisterData("", "", "", "");
    }

    /** Typing in the handle field. */
    method SetUsername(raw: string)
      modifies this`registerData
      ensures registerData == old(registerData).(username := UsernameInput(raw))
      ensures Valid()
    {
      registerData := registerData.(username := UsernameInput(raw));
      UsernameInputIsStored(raw);
    }

    /** `handleLoginSubmit`; the user it returns is the one handed to
        `onLogin`. */
    method LoginSubmit(auth: AuthResponse, profile: Option<User>) returns (loggedIn: Option<User>)
      modifies this`error, this`isLoading
      ensures !isLoading
      ensures LoginOutcome(auth, profile).Succeeded? ==> loggedIn == Some(LoginOutcome(auth, profile).user) && error == ""
      ensures LoginOutcome(auth, profile).Denied? ==> loggedIn == None && error == LoginOutcome(auth, profile).message
    {
      error := "";
      isLoading := true;
      var outcome := LoginOutcome(auth, profile);
      if outcome.Succeeded? {
        loggedIn := Some(outcome.user);
      } else {
        loggedIn := None;
        error := outcome.message;
      }
      isLoading := false;
    }

    /** `handleRegisterSubmit`; the profile it returns is the one handed to
        `onRegister` and `onLogin` after the redirect delay. */
    method RegisterSubmit(signUp: AuthResponse, b: Backend, now: int) returns (registered: Option<User>)
      requires Valid()
      modifies this`error, this`isLoading
      ensures !isLoading
      ensures var r := RegisterOutcome(registerData, signUp, b, now);
              (r.Succeeded? ==> registered == Some(r.user) && error == Registered)
              && (r.Denied? ==> registered == None && error == r.message)
    {
      error := "";
      isLoading := true;
      var outcome := RegisterOutcome(registerData, signUp, b, now);
      if outcome.Succeeded? {
        registered := Some(outcome.user);
        error := Registered;
      } else {
        registered := None;
        error := outcome.message;
      }
      isLoading := false;
    }
  }
}
