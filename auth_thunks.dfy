/** The thunks of the auth slice (src/redux/authReducer.ts): sign-up, login,
    password recovery, setting a new password, profile update and logout.
    Each is a trace function of its API outcome (its specification) and a
    method that dispatches into the store step by step. The rest of each try
    block, run once the request has resolved, is defined once as a body
    function used by both. */
module AuthThunks {
  import opened Wrappers
  import opened Store
  import Auth = AuthSlice

  const RegisteredInfo: string := "Are you registered"
  const LoginInfo: string := "logIn success"

  /** An avatar file chosen by the user; its base64 encoding is an input. */
  datatype File = File(contents: seq<int>)

  /** The effect of dispatching `a`. */
  function Act(a: Action): Effect
  {
    Dispatched(a)
  }

  /** The effect of dispatching the auth action `a`. */
  function AuthEffect(a: Auth.AuthAction): Effect
  {
    Dispatched(AuthAct(a))
  }

  // ---------------------------------------------------------------------------
  // The traces

  /** The rest of `singUpTC`'s try block: the sign-up flag and an info message. */
  function SingUpBody(outcome: Result<(), ApiError>): Result<seq<Effect>, ApiError>
  {
    match outcome
    case Success(_) => Success([AuthEffect(Auth.SetSingUp(true)), Act(SetInfo(RegisteredInfo))])
    case Failure(e) => Failure(e)
  }

  /** `singUpTC(value)`: the finally block sets the status to succeeded. */
  function SingUpTrace(form: DataForm, outcome: Result<(), ApiError>): (t: seq<Effect>)
    ensures LastStatus(t) == Some(Succeeded)
  {
    Attempt([Act(SetLoading(Loading)), Called(SingUp(form))], SingUpBody(outcome), [Act(SetLoading(Succeeded))])
  }

  /** The rest of `loginTC`'s try block: the parsed profile, an info message
      and the login flag. */
  function LoginBody(outcome: Result<Auth.ProfileData, ApiError>): Result<seq<Effect>, ApiError>
  {
    match outcome
    case Success(p) =>
      Success([AuthEffect(Auth.SetProfileData(p)), Act(SetInfo(LoginInfo)), AuthEffect(Auth.SetIsLogin(true))])
    case Failure(e) => Failure(e)
  }

  /** `loginTC(data)`: the finally block sets the status to idle. */
  function LoginTrace(data: LoginData, outcome: Result<Auth.ProfileData, ApiError>): (t: seq<Effect>)
    ensures LastStatus(t) == Some(Idle)
  {
    Attempt([Act(SetLoading(Loading)), Called(Login(data))], LoginBody(outcome), [Act(SetLoading(Idle))])
  }

  /** The rest of `forgotTC`'s try block: the e-mail, the verification flag
      and a succeeded status. `verified` is the value the thunk reads off the
      response. */
  function ForgotBody(email: string, outcome: Result<bool, ApiError>): Result<seq<Effect>, ApiError>
  {
    match outcome
    case Success(verified) =>
      Success([AuthEffect(Auth.GetEmailForgotPass(email)), AuthEffect(Auth.GetVerificationEmail(verified)),
               Act(SetLoading(Succeeded))])
    case Failure(e) => Failure(e)
  }

  /** `forgotTC(email)`: there is no finally block. */
  function ForgotTrace(email: string, outcome: Result<bool, ApiError>): (t: seq<Effect>)
    ensures LastStatus(t) == Some(if outcome.Success? then Succeeded else Error)
  {
    Attempt([Act(SetLoading(Loading)), Called(ForgotPassword(email))], ForgotBody(email, outcome), [])
  }

  /** The rest of `setNewPassTC`'s try block: the new password, the server's
      info message (as `passChanged` and as info) and a succeeded status. */
  function SetNewPassBody(password: string, outcome: Result<string, ApiError>): Result<seq<Effect>, ApiError>
  {
    match outcome
    case Success(info) =>
      Success([AuthEffect(Auth.SetNewPassword(password)), AuthEffect(Auth.ChangePassword(info)),
               Act(SetInfo(info)), Act(SetLoading(Succeeded))])
    case Failure(e) => Failure(e)
  }

  /** `setNewPassTC({password, resetPasswordToken})`: the loading action is
      created but never dispatched, so the trace starts with the request.
      There is no finally block. */
  function SetNewPassTrace(password: string, token: string, outcome: Result<string, ApiError>): (t: seq<Effect>)
    ensures LastStatus(t) == Some(if outcome.Success? then Succeeded else Error)
  {
    Attempt([Called(SetNewPass(password, token))], SetNewPassBody(password, outcome), [])
  }

  /** The body of a profile update: an `avatar` key exactly when a file was
      chosen (holding its encoding), a `name` key exactly when the name is a
      non-empty string. */
  function ProfileUpdatePayload(avatarFile: Option<File>, name: Option<string>, encode: File -> string): (u: ProfileUpdate)
    ensures u.avatar.Some? <==> avatarFile.Some?
    ensures avatarFile.Some? ==> u.avatar.value == encode(avatarFile.value)
    ensures u.name.Some? <==> Truthy(name)
    ensures u.name.Some? ==> u.name == name && u.name.value != ""
  {
    ProfileUpdate(if avatarFile.Some? then Some(encode(avatarFile.value)) else None,
                  if Truthy(name) then name else None)
  }

  /** The rest of `changeProfileDataTC`'s try block: the parsed profile and
      the login flag. */
  function ChangeProfileDataBody(outcome: Result<Auth.ProfileData, ApiError>): Result<seq<Effect>, ApiError>
  {
    match outcome
    case Success(p) => Success([AuthEffect(Auth.SetProfileData(p)), AuthEffect(Auth.SetIsLogin(true))])
    case Failure(e) => Failure(e)
  }

  /** `changeProfileDataTC({avatarFile, name})`: the finally block sets the
      status to idle. */
  function ChangeProfileDataTrace(avatarFile: Option<File>, name: Option<string>, encode: File -> string,
                                  outcome: Result<Auth.ProfileData, ApiError>): (t: seq<Effect>)
    ensures LastStatus(t) == Some(Idle)
  {
    Attempt([Act(SetLoading(Loading)), Called(ChangeUserNameOrAvatar(ProfileUpdatePayload(avatarFile, name, encode)))],
            ChangeProfileDataBody(outcome),
            [Act(SetLoading(Idle))])
  }

  /** The rest of `logoutTC`'s try block: the server's info message and the
      login flag cleared. */
  function LogoutBody(outcome: Result<string, ApiError>): Result<seq<Effect>, ApiError>
  {
    match outcome
    case Success(info) => Success([Act(SetInfo(info)), AuthEffect(Auth.SetIsLogin(false))])
    case Failure(e) => Failure(e)
  }

  /** `logoutTC()`: the finally block sets the status to idle. */
  function LogoutTrace(outcome: Result<string, ApiError>): (t: seq<Effect>)
    ensures LastStatus(t) == Some(Idle)
  {
    Attempt([Act(SetLoading(Loading)), Called(Logout)], LogoutBody(outcome), [Act(SetLoading(Idle))])
  }

  // ---------------------------------------------------------------------------
  // What the traces do

  /** The state a failed thunk leaves: signed out on 401, unchanged otherwise. */
  function AfterFailure(s: RootState, e: ApiError): RootState
  {
    if e.status == Some(Unauthorized) then s.(auth := s.auth.(isLogin := false)) else s
  }

  /** Every auth thunk, on failure, changes the state only by signing the user
      out when the status is 401; the packs slice is never touched. */
  lemma FailureSignsOutOn401(s: RootState, e: ApiError, form: DataForm, data: LoginData, email: string,
                             password: string, token: string, avatarFile: Option<File>, name: Option<string>,
                             encode: File -> string)
    ensures Run(s, SingUpTrace(form, Failure(e))) == AfterFailure(s, e)
    ensures Run(s, LoginTrace(data, Failure(e))) == AfterFailure(s, e)
    ensures Run(s, ForgotTrace(email, Failure(e))) == AfterFailure(s, e)
    ensures Run(s, SetNewPassTrace(password, token, Failure(e))) == AfterFailure(s, e)
    ensures Run(s, ChangeProfileDataTrace(avatarFile, name, encode, Failure(e))) == AfterFailure(s, e)
    ensures Run(s, LogoutTrace(Failure(e))) == AfterFailure(s, e)
  {
    var body: Result<seq<Effect>, ApiError> := Failure(e);
    AttemptEffect(s, [Act(SetLoading(Loading)), Called(SingUp(form))], body, [Act(SetLoading(Succeeded))]);
    AttemptEffect(s, [Act(SetLoading(Loading)), Called(Login(data))], body, [Act(SetLoading(Idle))]);
    AttemptEffect(s, [Act(SetLoading(Loading)), Called(ForgotPassword(email))], body, []);
    AttemptEffect(s, [Called(SetNewPass(password, token))], body, []);
    AttemptEffect(s, [Act(SetLoading(Loading)),
                      Called(ChangeUserNameOrAvatar(ProfileUpdatePayload(avatarFile, name, encode)))],
                  body, [Act(SetLoading(Idle))]);
    AttemptEffect(s, [Act(SetLoading(Loading)), Called(Logout)], body, [Act(SetLoading(Idle))]);
  }

  /** A successful sign-up sets the sign-up flag and nothing else. */
  lemma SingUpSuccess(s: RootState, form: DataForm)
    ensures Run(s, SingUpTrace(form, Success(()))) == s.(auth := s.auth.(isSingUp := true))
  {
    var rest := [AuthEffect(Auth.SetSingUp(true)), Act(SetInfo(RegisteredInfo))];
    AttemptEffect(s, [Act(SetLoading(Loading)), Called(SingUp(form))], Success(rest), [Act(SetLoading(Succeeded))]);
    RunTwo(s, rest[0], rest[1]);
  }

  /** A successful login stores exactly the parsed profile and sets the login
      flag; nothing else changes. */
  lemma LoginSuccess(s: RootState, data: LoginData, p: Auth.ProfileData)
    ensures Run(s, LoginTrace(data, Success(p))) == s.(auth := s.auth.(profileData := p, isLogin := true))
  {
    var rest := [AuthEffect(Auth.SetProfileData(p)), Act(SetInfo(LoginInfo)), AuthEffect(Auth.SetIsLogin(true))];
    AttemptEffect(s, [Act(SetLoading(Loading)), Called(Login(data))], Success(rest), [Act(SetLoading(Idle))]);
    RunThree(s, rest[0], rest[1], rest[2]);
  }

  /** A successful recovery request records the e-mail and the verification
      flag in the recovery flow; nothing else changes. */
  lemma ForgotSuccess(s: RootState, email: string, verified: bool)
    ensures Run(s, ForgotTrace(email, Success(verified))) ==
      s.(auth := s.auth.(forgotPass := s.auth.forgotPass.(email := email, verificationEmail := verified)))
  {
    var rest := [AuthEffect(Auth.GetEmailForgotPass(email)), AuthEffect(Auth.GetVerificationEmail(verified)), Act(SetLoading(Succeeded))];
    AttemptEffect(s, [Act(SetLoading(Loading)), Called(ForgotPassword(email))], Success(rest), []);
    RunThree(s, rest[0], rest[1], rest[2]);
  }

  /** A successful password change records the new password and the server's
      message in the recovery flow; nothing else changes. */
  lemma SetNewPassSuccess(s: RootState, password: string, token: string, info: string)
    ensures Run(s, SetNewPassTrace(password, token, Success(info))) ==
      s.(auth := s.auth.(forgotPass := s.auth.forgotPass.(password := password, passChanged := info)))
  {
    var rest := [AuthEffect(Auth.SetNewPassword(password)), AuthEffect(Auth.ChangePassword(info)), Act(SetInfo(info)),
                 Act(SetLoading(Succeeded))];
    AttemptEffect(s, [Called(SetNewPass(password, token))], Success(rest), []);
    RunFour(s, rest[0], rest[1], rest[2], rest[3]);
  }

  /** Setting a new password never dispatches the loading status, on either
      path: the request is the first effect. */
  lemma SetNewPassNeverLoading(password: string, token: string, outcome: Result<string, ApiError>)
    ensures SetNewPassTrace(password, token, outcome)[0] == Called(SetNewPass(password, token))
    ensures Dispatched(SetLoading(Loading)) !in SetNewPassTrace(password, token, outcome)
  {
    var t := SetNewPassTrace(password, token, outcome);
    if outcome.Failure? {
      var e := outcome.error;
      assert t == [Called(SetNewPass(password, token))] + CatchTrace(e);
      assert forall i | 0 <= i < |CatchTrace(e)| :: CatchTrace(e)[i] != Dispatched(SetLoading(Loading));
    }
  }

  /** A successful profile update stores exactly the parsed profile and sets
      the login flag; nothing else changes. The one request carries the
      payload built from the inputs. */
  lemma ChangeProfileDataSuccess(s: RootState, avatarFile: Option<File>, name: Option<string>, encode: File -> string,
                                 p: Auth.ProfileData)
    ensures Run(s, ChangeProfileDataTrace(avatarFile, name, encode, Success(p))) ==
      s.(auth := s.auth.(profileData := p, isLogin := true))
    ensures Requests(ChangeProfileDataTrace(avatarFile, name, encode, Success(p))) ==
      [ChangeUserNameOrAvatar(ProfileUpdatePayload(avatarFile, name, encode))]
  {
    var start := [Act(SetLoading(Loading)), Called(ChangeUserNameOrAvatar(ProfileUpdatePayload(avatarFile, name, encode)))];
    var rest := [AuthEffect(Auth.SetProfileData(p)), AuthEffect(Auth.SetIsLogin(true))];
    var finish := [Act(SetLoading(Idle))];
    AttemptEffect(s, start, Success(rest), finish);
    RunTwo(s, rest[0], rest[1]);
    AttemptRequests(start, Success(rest), finish);
    RequestsCons(start[0], [start[1]]);
    RequestsCons(start[1], []);
    assert start == [start[0]] + [start[1]];
    RequestsNone(rest);
    RequestsNone(finish);
  }

  /** A successful logout clears the login flag and nothing else. */
  lemma LogoutSuccess(s: RootState, info: string)
    ensures Run(s, LogoutTrace(Success(info))) == s.(auth := s.auth.(isLogin := false))
  {
    var rest := [Act(SetInfo(info)), AuthEffect(Auth.SetIsLogin(false))];
    AttemptEffect(s, [Act(SetLoading(Loading)), Called(Logout)], Success(rest), [Act(SetLoading(Idle))]);
    RunTwo(s, rest[0], rest[1]);
  }

  // ---------------------------------------------------------------------------
  // The thunks as they run against the store

  /** `singUpTC(value)`. */
  method SingUpTC(store: Store, form: DataForm, outcome: Result<(), ApiError>)
    requires store.Valid()
    modifies store
    ensures store.Valid() && store.initial == old(store.initial)
    ensures store.effects == old(store.effects) + SingUpTrace(form, outcome)
    ensures store.state == Run(old(store.state), SingUpTrace(form, outcome))
  {
    store.Dispatch(SetLoading(Loading));
    store.Call(SingUp(form));
    ghost var afterRequest := store.effects;
    match outcome {
      case Success(_) =>
        store.Dispatch(AuthAct(Auth.SetSingUp(true)));
        store.Dispatch(SetInfo(RegisteredInfo));
      case Failure(e) =>
        Catch(store, e);
    }
    ghost var middle := TryOrCatch(SingUpBody(outcome));
    assert store.effects == afterRequest + middle;
    store.Dispatch(SetLoading(Succeeded));
    AttemptAppend(old(store.effects), [Act(SetLoading(Loading)), Called(SingUp(form))], afterRequest,
                  SingUpBody(outcome), [Act(SetLoading(Succeeded))], store.effects);
    RunAppend(store.initial, old(store.effects), SingUpTrace(form, outcome));
  }

  /** `loginTC(data)`. */
  method LoginTC(store: Store, data: LoginData, outcome: Result<Auth.ProfileData, ApiError>)
    requires store.Valid()
    modifies store
    ensures store.Valid() && store.initial == old(store.initial)
    ensures store.effects == old(store.effects) + LoginTrace(data, outcome)
    ensures store.state == Run(old(store.state), LoginTrace(data, outcome))
  {
    store.Dispatch(SetLoading(Loading));
    store.Call(Login(data));
    ghost var afterRequest := store.effects;
    match outcome {
      case Success(p) =>
        store.Dispatch(AuthAct(Auth.SetProfileData(p)));
        store.Dispatch(SetInfo(LoginInfo));
        store.Dispatch(AuthAct(Auth.SetIsLogin(true)));
      case Failure(e) =>
        Catch(store, e);
    }
    ghost var middle := TryOrCatch(LoginBody(outcome));
    assert store.effects == afterRequest + middle;
    store.Dispatch(SetLoading(Idle));
    AttemptAppend(old(store.effects), [Act(SetLoading(Loading)), Called(Login(data))], afterRequest,
                  LoginBody(outcome), [Act(SetLoading(Idle))], store.effects);
    RunAppend(store.initial, old(store.effects), LoginTrace(data, outcome));
  }

  /** `forgotTC(email)`. */
  method ForgotTC(store: Store, email: string, outcome: Result<bool, ApiError>)
    requires store.Valid()
    modifies store
    ensures store.Valid() && store.initial == old(store.initial)
    ensures store.effects == old(store.effects) + ForgotTrace(email, outcome)
    ensures store.state == Run(old(store.state), ForgotTrace(email, outcome))
  {
    store.Dispatch(SetLoading(Loading));
    store.Call(ForgotPassword(email));
    ghost var afterRequest := store.effects;
    match outcome {
      case Success(verified) =>
        store.Dispatch(AuthAct(Auth.GetEmailForgotPass(email)));
        store.Dispatch(AuthAct(Auth.GetVerificationEmail(verified)));
        store.Dispatch(SetLoading(Succeeded));
      case Failure(e) =>
        Catch(store, e);
    }
    ghost var middle := TryOrCatch(ForgotBody(email, outcome));
    assert store.effects == afterRequest + middle;
    AttemptAppend(old(store.effects), [Act(SetLoading(Loading)), Called(ForgotPassword(email))], afterRequest,
                  ForgotBody(email, outcome), [], store.effects);
    RunAppend(store.initial, old(store.effects), ForgotTrace(email, outcome));
  }

  /** `setNewPassTC({password, resetPasswordToken})`. */
  method SetNewPassTC(store: Store, password: string, token: string, outcome: Result<string, ApiError>)
    requires store.Valid()
    modifies store
    ensures store.Valid() && store.initial == old(store.initial)
    ensures store.effects == old(store.effects) + SetNewPassTrace(password, token, outcome)
    ensures store.state == Run(old(store.state), SetNewPassTrace(password, token, outcome))
  {
    store.Call(SetNewPass(password, token));
    ghost var afterRequest := store.effects;
    match outcome {
      case Success(info) =>
        var passChanged := info;
        store.Dispatch(AuthAct(Auth.SetNewPassword(password)));
        store.Dispatch(AuthAct(Auth.ChangePassword(passChanged)));
        store.Dispatch(SetInfo(passChanged));
        store.Dispatch(SetLoading(Succeeded));
      case Failure(e) =>
        Catch(store, e);
    }
    ghost var middle := TryOrCatch(SetNewPassBody(password, outcome));
    assert store.effects == afterRequest + middle;
    AttemptAppend(old(store.effects), [Called(SetNewPass(password, token))], afterRequest,
                  SetNewPassBody(password, outcome), [], store.effects);
    RunAppend(store.initial, old(store.effects), SetNewPassTrace(password, token, outcome));
  }

  /** The request body of a profile update, built by adding the keys one at
      a time to an empty object. */
  method BuildProfileUpdate(avatarFile: Option<File>, name: Option<string>, encode: File -> string)
    returns (newProfileData: ProfileUpdate)
    ensures newProfileData == ProfileUpdatePayload(avatarFile, name, encode)
  {
    newProfileData := ProfileUpdate(None, None);
    if avatarFile.Some? {
      var avatar := encode(avatarFile.value);
      newProfileData := newProfileData.(avatar := Some(avatar));
    }
    if name.Some? && name.value != "" {
      newProfileData := newProfileData.(name := name);
    }
  }

  /** `changeProfileDataTC({avatarFile, name})`: the request body is built by
      adding the keys one at a time. */
  method ChangeProfileDataTC(store: Store, avatarFile: Option<File>, name: Option<string>, encode: File -> string,
                             outcome: Result<Auth.ProfileData, ApiError>)
    requires store.Valid()
    modifies store
    ensures store.Valid() && store.initial == old(store.initial)
    ensures store.effects == old(store.effects) + ChangeProfileDataTrace(avatarFile, name, encode, outcome)
    ensures store.state == Run(old(store.state), ChangeProfileDataTrace(avatarFile, name, encode, outcome))
  {
    store.Dispatch(SetLoading(Loading));
    var newProfileData := BuildProfileUpdate(avatarFile, name, encode);
    store.Call(ChangeUserNameOrAvatar(newProfileData));
    ghost var afterRequest := store.effects;
    match outcome {
      case Success(p) =>
        store.Dispatch(AuthAct(Auth.SetProfileData(p)));
        store.Dispatch(AuthAct(Auth.SetIsLogin(true)));
      case Failure(e) =>
        Catch(store, e);
    }
    ghost var middle := TryOrCatch(ChangeProfileDataBody(outcome));
    assert store.effects == afterRequest + middle;
    store.Dispatch(SetLoading(Idle));
    AttemptAppend(old(store.effects), [Act(SetLoading(Loading)), Called(ChangeUserNameOrAvatar(newProfileData))], afterRequest,
                  ChangeProfileDataBody(outcome), [Act(SetLoading(Idle))], store.effects);
    RunAppend(store.initial, old(store.effects), ChangeProfileDataTrace(avatarFile, name, encode, outcome));
  }

  /** `logoutTC()`. */
  method LogoutTC(store: Store, outcome: Result<string, ApiError>)
    requires store.Valid()
    modifies store
    ensures store.Valid() && store.initial == old(store.initial)
    ensures store.effects == old(store.effects) + LogoutTrace(outcome)
    ensures store.state == Run(old(store.state), LogoutTrace(outcome))
  {
    store.Dispatch(SetLoading(Loading));
    store.Call(Logout);
    ghost var afterRequest := store.effects;
    match outcome {
      case Success(info) =>
        store.Dispatch(SetInfo(info));
        store.Dispatch(AuthAct(Auth.SetIsLogin(false)));
      case Failure(e) =>
        Catch(store, e);
    }
    ghost var middle := TryOrCatch(LogoutBody(outcome));
    assert store.effects == afterRequest + middle;
    store.Dispatch(SetLoading(Idle));
    AttemptAppend(old(store.effects), [Act(SetLoading(Loading)), Called(Logout)], afterRequest,
                  LogoutBody(outcome), [Act(SetLoading(Idle))], store.effects);
    RunAppend(store.initial, old(store.effects), LogoutTrace(outcome));
  }
}
