/**
 * The authentication store of the chat client, as values.
 *
 * `Store` is the whole state the store object holds (the session, the four
 * in-flight flags, the online-user list and the one realtime connection
 * handle). Every store operation is a function from the state before it and
 * the outcome of its one HTTP call to a `Step`: the state after the operation
 * has settled, whether the returned promise resolved or rejected, and the
 * toast it showed. The class in module UseAuthStore is specified by these
 * functions.
 */
module AuthModel {

  datatype Option<+T> = None | Some(value: T)

  type UserId = string

  /** The authenticated-user record. `id` is the server's `_id`; the other
      profile fields are opaque to the store and only the private key is named. */
  datatype User = User(id: UserId, privateKey: string)

  /** A realtime connection handle: the endpoint it was opened on, the
      `userId` query it was opened with, and whether it is connected. */
  datatype Handle = Handle(endpoint: string, userId: UserId, connected: bool)

  /** The `response` part of an HTTP error: a status and the body's optional
      `message` field. */
  datatype ErrorResponse = ErrorResponse(status: int, message: Option<string>)

  /** An error raised by the HTTP client; `response` is absent when no
      response arrived (network failure, request never sent). */
  datatype HttpError = HttpError(response: Option<ErrorResponse>)

  /** The outcome of one HTTP call that returns a user record. */
  datatype Outcome = Ok(user: User) | Err(error: HttpError)

  /** What a rejected operation rejects with: the HTTP error itself, or the
      TypeError raised inside a catch block that reads `error.response.data`
      of an error that has no `response`. */
  datatype Thrown = Http(error: HttpError) | MissingResponse

  /** How the promise returned by an operation settles. */
  datatype Settle = Resolved(value: Option<User>) | Rejected(reason: Thrown)

  /** The toast an operation shows, if any. An error toast can be shown with
      an undefined text (a response whose body has no `message`). */
  datatype Notice = Silent | SuccessToast(text: string) | ErrorToast(message: Option<string>)

  /** The state of the store object. `created` counts the connection handles
      opened so far; it is bookkeeping for the proofs, not a field of the store. */
  datatype Store = Store(
    authUser: Option<User>,
    isSigningUp: bool,
    isLoggingIn: bool,
    isUpdatingProfile: bool,
    isCheckingAuth: bool,
    onlineUsers: seq<UserId>,
    socket: Option<Handle>,
    baseUrl: string,
    created: nat)

  /** A settled operation: the new state, how its promise settled, its toast. */
  datatype Step = Step(after: Store, settle: Settle, notice: Notice)

  /** How a catch block ended: how the promise settles and the toast it showed. */
  datatype Caught = Caught(settle: Settle, notice: Notice)

  const DevelopmentUrl: string := "http://localhost:5001"
  const SignupText: string := "Account created successfully"
  const LoginText: string := "Logged in successfully"
  const LogoutText: string := "Logged out successfully"
  const PrivateKeyText: string := "Private key updated successfully"
  const PrivateKeyFallback: string := "Error updating private key"
  const GenerateKeyText: string := "New private key generated successfully"
  const GenerateKeyFallback: string := "Error generating new private key"

  /** The realtime endpoint: a fixed local address in development, the
      same-origin root otherwise. */
  function BaseUrl(development: bool): (url: string)
    ensures url == DevelopmentUrl <==> development
    ensures !development ==> url == "/"
  {
    if development then DevelopmentUrl else "/"
  }

  /** The current handle exists and reports connected. */
  predicate Connected(s: Store) {
    s.socket.Some? && s.socket.value.connected
  }

  /** No in-flight flag differs between `s` and `t`. */
  predicate SameFlags(s: Store, t: Store) {
    s.isSigningUp == t.isSigningUp && s.isLoggingIn == t.isLoggingIn &&
    s.isUpdatingProfile == t.isUpdatingProfile && s.isCheckingAuth == t.isCheckingAuth
  }

  /** The invariant every reachable state keeps: a handle is stored exactly
      when one has been opened, and it was opened on the store's endpoint. */
  predicate Inv(s: Store) {
    (s.socket.None? <==> s.created == 0) &&
    (s.socket.Some? ==> s.socket.value.endpoint == s.baseUrl)
  }

  /** The store as it is created. */
  function Initial(development: bool): (s: Store)
    ensures s.authUser.None? && s.isCheckingAuth
    ensures !s.isSigningUp && !s.isLoggingIn && !s.isUpdatingProfile
    ensures s.onlineUsers == [] && s.socket.None? && s.created == 0
    ensures s.baseUrl == BaseUrl(development)
    ensures Inv(s)
  {
    Store(None, false, false, false, true, [], None, BaseUrl(development), 0)
  }

  /** `connectSocket`: opens a handle for the logged-in user unless there is
      no session or the current handle is connected. A new handle is
      connected at once; the handshake is not modelled. */
  function ConnectSocket(s: Store): (t: Store)
    ensures t == s <==> s.authUser.None? || Connected(s)
    ensures t != s ==> t.created == s.created + 1
    ensures t != s ==> t.socket == Some(Handle(s.baseUrl, s.authUser.value.id, true))
    ensures t.(socket := s.socket, created := s.created) == s
    ensures t.authUser.None? || Connected(t)
    ensures Inv(s) ==> Inv(t)
  {
    if s.authUser.None? || Connected(s) then s
    else s.(socket := Some(Handle(s.baseUrl, s.authUser.value.id, true)), created := s.created + 1)
  }

  /** `disconnectSocket`: disconnects the current handle if it is connected.
      The handle stays stored and the online-user list is kept. */
  function DisconnectSocket(s: Store): (t: Store)
    ensures !Connected(t)
    ensures !Connected(s) ==> t == s
    ensures Connected(s) ==> t.socket == Some(s.socket.value.(connected := false))
    ensures t.socket.Some? == s.socket.Some?
    ensures t.(socket := s.socket) == s
    ensures Inv(s) ==> Inv(t)
  {
    if Connected(s) then s.(socket := Some(s.socket.value.(connected := false))) else s
  }

  /** The `getOnlineUsers` handler: the pushed list replaces the old one as it
      is. The handler exists only once a handle has been opened, and a
      disconnected handle receives no events. */
  function DeliverOnlineUsers(s: Store, ids: seq<UserId>): (t: Store)
    requires Connected(s)
    ensures t.onlineUsers == ids
    ensures t.(onlineUsers := s.onlineUsers) == s
    ensures Inv(s) ==> Inv(t)
  {
    s.(onlineUsers := ids)
  }

  /** The catch block of `signup`, `login` and `logout`: it shows the server's
      message, and throws a TypeError when the error carries no response, so
      the operation then rejects without a toast. */
  function CatchShowingServerMessage(e: HttpError): (c: Caught)
    ensures c.settle.Rejected? <==> e.response.None?
    ensures e.response.Some? ==> c.settle == Resolved(None) && c.notice == ErrorToast(e.response.value.message)
    ensures e.response.None? ==> c.settle == Rejected(MissingResponse) && c.notice == Silent
  {
    match e.response
    case Some(resp) => Caught(Resolved(None), ErrorToast(resp.message))
    case None => Caught(Rejected(MissingResponse), Silent)
  }

  /** The text the key operations show on failure: the server's message when
      there is one and it is not empty (`||` also skips ""), else the fallback. */
  function ShownMessage(e: HttpError, fallback: string): (m: string)
    ensures m == fallback || (e.response.Some? && e.response.value.message == Some(m) && m != "")
    ensures e.response.Some? && e.response.value.message.Some? && e.response.value.message.value != ""
            ==> m == e.response.value.message.value
    ensures m == "" ==> fallback == ""
  {
    if e.response.Some? && e.response.value.message.Some? && e.response.value.message.value != ""
    then e.response.value.message.value
    else fallback
  }

  /** `checkAuth`: on success the returned record becomes the session and a
      connect is attempted; on failure the session is cleared silently. The
      flag `isCheckingAuth` is only ever cleared, and the promise always
      resolves. */
  function CheckAuth(s: Store, o: Outcome): (r: Step)
    ensures !r.after.isCheckingAuth
    ensures r.after.isSigningUp == s.isSigningUp && r.after.isLoggingIn == s.isLoggingIn
    ensures r.after.isUpdatingProfile == s.isUpdatingProfile
    ensures r.settle == Resolved(None) && r.notice == Silent
    ensures o.Ok? ==> r.after.authUser == Some(o.user) && Connected(r.after)
    ensures o.Ok? ==> r.after == ConnectSocket(s.(authUser := Some(o.user))).(isCheckingAuth := false)
    ensures o.Err? ==> r.after == s.(authUser := None, isCheckingAuth := false)
    ensures Inv(s) ==> Inv(r.after)
  {
    match o
    case Ok(u) => Step(ConnectSocket(s.(authUser := Some(u))).(isCheckingAuth := false), Resolved(None), Silent)
    case Err(_) => Step(s.(authUser := None, isCheckingAuth := false), Resolved(None), Silent)
  }

  /** The state of `signup` while its request is in flight. */
  function SignupBegin(s: Store): (p: Store)
    ensures p.isSigningUp
    ensures p.(isSigningUp := s.isSigningUp) == s
  {
    s.(isSigningUp := true)
  }

  /** `signup`: on success the new account becomes the session and a connect
      is attempted; on failure the session and the handle are unchanged.
      `isSigningUp` ends false on every path, including the rejection thrown
      by the catch block itself, and no other flag changes. */
  function Signup(s: Store, o: Outcome): (r: Step)
    ensures !r.after.isSigningUp
    ensures r.after.isLoggingIn == s.isLoggingIn && r.after.isUpdatingProfile == s.isUpdatingProfile
    ensures r.after.isCheckingAuth == s.isCheckingAuth
    ensures o.Ok? ==> r.after.authUser == Some(o.user) && Connected(r.after)
    ensures o.Ok? ==> r.after == ConnectSocket(s.(authUser := Some(o.user))).(isSigningUp := false)
    ensures o.Ok? ==> r.settle == Resolved(None) && r.notice == SuccessToast(SignupText)
    ensures o.Err? ==> r.after == s.(isSigningUp := false)
    ensures o.Err? ==> Caught(r.settle, r.notice) == CatchShowingServerMessage(o.error)
    ensures Inv(s) ==> Inv(r.after)
  {
    var p := SignupBegin(s);
    match o
    case Ok(u) => Step(ConnectSocket(p.(authUser := Some(u))).(isSigningUp := false), Resolved(None), SuccessToast(SignupText))
    case Err(e) =>
      var c := CatchShowingServerMessage(e);
      Step(p.(isSigningUp := false), c.settle, c.notice)
  }

  /** The state of `login` while its request is in flight. */
  function LoginBegin(s: Store): (p: Store)
    ensures p.isLoggingIn
    ensures p.(isLoggingIn := s.isLoggingIn) == s
  {
    s.(isLoggingIn := true)
  }

  /** `login`: as `signup`, with its own flag and toast. */
  function Login(s: Store, o: Outcome): (r: Step)
    ensures !r.after.isLoggingIn
    ensures r.after.isSigningUp == s.isSigningUp && r.after.isUpdatingProfile == s.isUpdatingProfile
    ensures r.after.isCheckingAuth == s.isCheckingAuth
    ensures o.Ok? ==> r.after.authUser == Some(o.user) && Connected(r.after)
    ensures o.Ok? ==> r.after == ConnectSocket(s.(authUser := Some(o.user))).(isLoggingIn := false)
    ensures o.Ok? ==> r.settle == Resolved(None) && r.notice == SuccessToast(LoginText)
    ensures o.Err? ==> r.after == s.(isLoggingIn := false)
    ensures o.Err? ==> Caught(r.settle, r.notice) == CatchShowingServerMessage(o.error)
    ensures Inv(s) ==> Inv(r.after)
  {
    var p := LoginBegin(s);
    match o
    case Ok(u) => Step(ConnectSocket(p.(authUser := Some(u))).(isLoggingIn := false), Resolved(None), SuccessToast(LoginText))
    case Err(e) =>
      var c := CatchShowingServerMessage(e);
      Step(p.(isLoggingIn := false), c.settle, c.notice)
  }

  /** `logout`: `err` is the error of the logout request, absent when it
      succeeded. Only on success is the session cleared and the handle
      disconnected; a failed logout changes no state. No flag is used. */
  function Logout(s: Store, err: Option<HttpError>): (r: Step)
    ensures SameFlags(s, r.after)
    ensures err.None? ==> r.after.authUser.None? && !Connected(r.after)
    ensures err.None? ==> r.after == DisconnectSocket(s.(authUser := None))
    ensures err.None? ==> r.settle == Resolved(None) && r.notice == SuccessToast(LogoutText)
    ensures err.Some? ==> r.after == s
    ensures err.Some? ==> Caught(r.settle, r.notice) == CatchShowingServerMessage(err.value)
    ensures Inv(s) ==> Inv(r.after)
  {
    match err
    case None => Step(DisconnectSocket(s.(authUser := None)), Resolved(None), SuccessToast(LogoutText))
    case Some(e) =>
      var c := CatchShowingServerMessage(e);
      Step(s, c.settle, c.notice)
  }

  /** The state of `updateProfile` while its request is in flight. */
  function UpdateProfileBegin(s: Store): (p: Store)
    ensures p.isUpdatingProfile
    ensures p.(isUpdatingProfile := s.isUpdatingProfile) == s
  {
    s.(isUpdatingProfile := true)
  }

  /** `updateProfile`: on success the returned record becomes the session;
      on failure the same error is propagated to the caller whatever its kind
      and the session is kept. No toast, no connection change, and
      `isUpdatingProfile` ends false on both paths. */
  function UpdateProfile(s: Store, o: Outcome): (r: Step)
    ensures !r.after.isUpdatingProfile
    ensures r.after.isSigningUp == s.isSigningUp && r.after.isLoggingIn == s.isLoggingIn
    ensures r.after.isCheckingAuth == s.isCheckingAuth
    ensures r.notice == Silent
    ensures r.after.socket == s.socket && r.after.onlineUsers == s.onlineUsers
    ensures o.Ok? ==> r.after == s.(authUser := Some(o.user), isUpdatingProfile := false) && r.settle == Resolved(None)
    ensures o.Err? ==> r.after == s.(isUpdatingProfile := false) && r.settle == Rejected(Http(o.error))
    ensures Inv(s) ==> Inv(r.after)
  {
    var p := UpdateProfileBegin(s);
    match o
    case Ok(u) => Step(p.(authUser := Some(u), isUpdatingProfile := false), Resolved(None), Silent)
    case Err(e) => Step(p.(isUpdatingProfile := false), Rejected(Http(e)), Silent)
  }

  /** `updatePrivateKey`: no flag. On success the returned record becomes the
      session and is also the promise's value; on failure an error toast is
      shown and the same error is rethrown, the session kept. */
  function UpdatePrivateKey(s: Store, o: Outcome): (r: Step)
    ensures SameFlags(s, r.after)
    ensures r.after.(authUser := s.authUser) == s
    ensures o.Ok? ==> r.after.authUser == Some(o.user) && r.settle == Resolved(Some(o.user))
    ensures o.Ok? ==> r.notice == SuccessToast(PrivateKeyText)
    ensures o.Err? ==> r.after == s && r.settle == Rejected(Http(o.error))
    ensures o.Err? ==> r.notice == ErrorToast(Some(ShownMessage(o.error, PrivateKeyFallback)))
    ensures Inv(s) ==> Inv(r.after)
  {
    match o
    case Ok(u) => Step(s.(authUser := Some(u)), Resolved(Some(u)), SuccessToast(PrivateKeyText))
    case Err(e) => Step(s, Rejected(Http(e)), ErrorToast(Some(ShownMessage(e, PrivateKeyFallback))))
  }

  /** `generateNewPrivateKey`: as `updatePrivateKey`, with its own texts. */
  function GenerateNewPrivateKey(s: Store, o: Outcome): (r: Step)
    ensures SameFlags(s, r.after)
    ensures r.after.(authUser := s.authUser) == s
    ensures o.Ok? ==> r.after.authUser == Some(o.user) && r.settle == Resolved(Some(o.user))
    ensures o.Ok? ==> r.notice == SuccessToast(GenerateKeyText)
    ensures o.Err? ==> r.after == s && r.settle == Rejected(Http(o.error))
    ensures o.Err? ==> r.notice == ErrorToast(Some(ShownMessage(o.error, GenerateKeyFallback)))
    ensures Inv(s) ==> Inv(r.after)
  {
    match o
    case Ok(u) => Step(s.(authUser := Some(u)), Resolved(Some(u)), SuccessToast(GenerateKeyText))
    case Err(e) => Step(s, Rejected(Http(e)), ErrorToast(Some(ShownMessage(e, GenerateKeyFallback))))
  }
}
