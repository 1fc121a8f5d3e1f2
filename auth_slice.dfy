/** The auth slice of the store: sign-up and sign-in flags, the password
    recovery flow and the signed-in user's profile, with the reducer over its
    seven actions (src/redux/authReducer.ts). */
module AuthSlice {
  import opened Wrappers

  /** The user's profile. `id` is optional because a profile resolved from a
      login or profile-update response carries no `id` key. */
  datatype ProfileData = ProfileData(
    id: Option<string>,
    email: string,
    name: string,
    avatar: Option<string>)

  /** The password recovery flow. */
  datatype ForgotPass = ForgotPass(
    email: string,
    password: string,
    passChanged: string,
    verificationEmail: bool)

  datatype AuthState = AuthState(
    isSingUp: bool,
    isLogin: bool,
    forgotPass: ForgotPass,
    profileData: ProfileData)

  const InitialState: AuthState :=
    AuthState(false, false, ForgotPass("", "", "", false), ProfileData(Some(""), "", "", None))

  /** The seven actions of the slice; each constructor is its action creator. */
  datatype AuthAction =
    | SetSingUp(statusSingUp: bool)
    | SetIsLogin(isLogin: bool)
    | GetEmailForgotPass(email: string)
    | SetProfileData(profileData: ProfileData)
    | GetVerificationEmail(verificationEmail: bool)
    | SetNewPassword(password: string)
    | ChangePassword(passChanged: string)

  /** The individual fields of the state, the recovery flow's included. */
  datatype Field =
    | SingUpFlag | LoginFlag | Profile
    | ForgotEmail | ForgotVerified | ForgotPassword | ForgotPassChanged

  datatype Value = Flag(flag: bool) | Text(text: string) | ProfileValue(profile: ProfileData)

  function Get(s: AuthState, f: Field): Value
  {
    match f
    case SingUpFlag => Flag(s.isSingUp)
    case LoginFlag => Flag(s.isLogin)
    case Profile => ProfileValue(s.profileData)
    case ForgotEmail => Text(s.forgotPass.email)
    case ForgotVerified => Flag(s.forgotPass.verificationEmail)
    case ForgotPassword => Text(s.forgotPass.password)
    case ForgotPassChanged => Text(s.forgotPass.passChanged)
  }

  /** The one field an action writes. */
  function Target(a: AuthAction): Field
  {
    match a
    case SetSingUp(_) => SingUpFlag
    case SetIsLogin(_) => LoginFlag
    case GetEmailForgotPass(_) => ForgotEmail
    case SetProfileData(_) => Profile
    case GetVerificationEmail(_) => ForgotVerified
    case SetNewPassword(_) => ForgotPassword
    case ChangePassword(_) => ForgotPassChanged
  }

  /** The value an action writes to its field. */
  function Payload(a: AuthAction): Value
  {
    match a
    case SetSingUp(b) => Flag(b)
    case SetIsLogin(b) => Flag(b)
    case GetEmailForgotPass(e) => Text(e)
    case SetProfileData(p) => ProfileValue(p)
    case GetVerificationEmail(b) => Flag(b)
    case SetNewPassword(p) => Text(p)
    case ChangePassword(c) => Text(c)
  }

  /** The reducer: the action's field takes the action's value and every other
      field, top-level or in the recovery flow, keeps its old value. */
  function Reduce(s: AuthState, a: AuthAction): (r: AuthState)
    ensures forall f :: Get(r, f) == if f == Target(a) then Payload(a) else Get(s, f)
  {
    match a
    case SetSingUp(b) => s.(isSingUp := b)
    case SetIsLogin(b) => s.(isLogin := b)
    case SetProfileData(p) => s.(profileData := p)
    case GetEmailForgotPass(e) => s.(forgotPass := s.forgotPass.(email := e))
    case GetVerificationEmail(b) => s.(forgotPass := s.forgotPass.(verificationEmail := b))
    case SetNewPassword(p) => s.(forgotPass := s.forgotPass.(password := p))
    case ChangePassword(c) => s.(forgotPass := s.forgotPass.(passChanged := c))
  }

  /** The field view is complete: two states that agree on every field are
      equal, so the contract of Reduce says everything about its result. */
  lemma FieldsDetermineState(s: AuthState, t: AuthState)
    requires forall f :: Get(s, f) == Get(t, f)
    ensures s == t
  {
    assert Get(s, SingUpFlag) == Get(t, SingUpFlag);
    assert Get(s, LoginFlag) == Get(t, LoginFlag);
    assert Get(s, Profile) == Get(t, Profile);
    assert Get(s, ForgotEmail) == Get(t, ForgotEmail);
    assert Get(s, ForgotVerified) == Get(t, ForgotVerified);
    assert Get(s, ForgotPassword) == Get(t, ForgotPassword);
    assert Get(s, ForgotPassChanged) == Get(t, ForgotPassChanged);
  }
}
