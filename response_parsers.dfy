/** The response parsers of the API layer (src/api/responseParsers.ts): each
    turns a server response, or a transport error, into a resolved value or a
    rejection reason. */
module ResponseParsers {
  import opened Wrappers
  import Auth = AuthSlice

  /** A transport-level response: its body, HTTP status and status text. */
  datatype AxiosResponse<T> = AxiosResponse(data: T, status: int, statusText: string)

  /** The JSON body of an error response; `error` may be missing or null. */
  datatype ErrorBody = ErrorBody(error: Option<string>)

  /** The response an error carries, if any; its body may be missing. */
  datatype ErrorResponse = ErrorResponse(data: Option<ErrorBody>, status: int)

  /** A failed request: the server's response if one arrived, and the
      transport message. */
  datatype AxiosError = AxiosError(response: Option<ErrorResponse>, message: string)

  /** The server's user record, as the login and profile endpoints send it. */
  datatype LoginResponse = LoginResponse(
    id: string,
    email: string,
    name: string,
    avatar: Option<string>,
    isAdmin: bool,
    verified: bool,
    rememberMe: bool,
    token: string,
    publicCardPacksCount: int,
    error: Option<string>)

  datatype UpdatedUserResponse = UpdatedUserResponse(updatedUser: LoginResponse, error: Option<string>)

  /** `getDataFromAxiosResponse`: the body of the response. */
  function GetDataFromAxiosResponse<T>(res: AxiosResponse<T>): (data: T)
    ensures res == AxiosResponse(data, res.status, res.statusText)
  {
    res.data
  }

  /** The server's `error` message in a failed request, when the response, its
      body and the key are all present (`res.response?.data?.error`). */
  function ServerError(err: AxiosError): Option<string>
  {
    match err.response
    case None => None
    case Some(response) =>
      match response.data
      case None => None
      case Some(body) => body.error
  }

  /** `parseAxiosError`: always rejects, with the server's message when there
      is one (even an empty one) and the transport message otherwise. The
      promise it returns never resolves, so its value type is the unit. */
  function ParseAxiosError(err: AxiosError): (r: Result<(), string>)
    ensures r.Failure?
    ensures err.response.Some? && err.response.value.data.Some? && err.response.value.data.value.error.Some? ==>
      r.error == err.response.value.data.value.error.value
    ensures err.response.None? || err.response.value.data.None? || err.response.value.data.value.error.None? ==>
      r.error == err.message
  {
    Failure(ServerError(err).GetOr(err.message))
  }

  /** The profile the parsers resolve: email, name and avatar of the user
      record. The id and every other key are dropped. */
  function ProfileOf(user: LoginResponse): Auth.ProfileData
  {
    Auth.ProfileData(None, user.email, user.name, user.avatar)
  }

  /** `parseLoginResponse`: rejects with `error` exactly when it is a
      non-empty string; resolves the user's email, name and avatar otherwise. */
  function ParseLoginResponse(res: LoginResponse): (r: Result<Auth.ProfileData, string>)
    ensures r.Failure? <==> Truthy(res.error)
    ensures r.Failure? ==> r.error == res.error.value
    ensures r.Success? ==>
      r.value.id == None && r.value.email == res.email && r.value.name == res.name && r.value.avatar == res.avatar
    ensures res.error == Some("") ==> r.Success?
  {
    if Truthy(res.error) then Failure(res.error.value) else Success(ProfileOf(res))
  }

  /** `parseUpdatedUserResponse`: rejects with `error` exactly when it is a
      non-empty string; resolves the updated user's email, name and avatar
      otherwise. */
  function ParseUpdatedUserResponse(res: UpdatedUserResponse): (r: Result<Auth.ProfileData, string>)
    ensures r.Failure? <==> Truthy(res.error)
    ensures r.Failure? ==> r.error == res.error.value
    ensures r.Success? ==>
      && r.value.id == None
      && r.value.email == res.updatedUser.email
      && r.value.name == res.updatedUser.name
      && r.value.avatar == res.updatedUser.avatar
    ensures res.error == Some("") ==> r.Success?
  {
    if Truthy(res.error) then Failure(res.error.value) else Success(ProfileOf(res.updatedUser))
  }
}
