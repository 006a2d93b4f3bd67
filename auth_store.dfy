/**
 * The store object itself: one object whose fields every operation updates
 * in place. Each asynchronous operation is a method that takes the outcome of
 * its HTTP call (the suspension point) and returns how its promise settles and
 * the toast it showed; the ghost out-parameter `inFlight` is the state at the
 * suspension point, after the operation's flag was raised. Every method's new
 * state is the one the matching function of module AuthModel gives.
 */
module UseAuthStore {
  import opened AuthModel

  class AuthStore {
    var authUser: Option<User>
    var isSigningUp: bool
    var isLoggingIn: bool
    var isUpdatingProfile: bool
    var isCheckingAuth: bool
    var onlineUsers: seq<UserId>
    var socket: Option<Handle>
    /** The realtime endpoint, fixed when the store is created. */
    const baseUrl: string
    /** How many connection handles have been opened. */
    ghost var handlesCreated: nat

    /** The abstract value of the store. */
    ghost function State(): Store
      reads this
    {
      Store(authUser, isSigningUp, isLoggingIn, isUpdatingProfile, isCheckingAuth,
            onlineUsers, socket, baseUrl, handlesCreated)
    }

    ghost predicate Valid()
      reads this
    {
      Inv(State())
    }

    constructor (development: bool)
      ensures Valid()
      ensures State() == Initial(development)
    {
      authUser := None;
      isSigningUp := false;
      isLoggingIn := false;
      isUpdatingProfile := false;
      isCheckingAuth := true;
      onlineUsers := [];
      socket := None;
      baseUrl := BaseUrl(development);
      handlesCreated := 0;
    }

    method ConnectSocket()
      requires Valid()
      modifies this
      ensures Valid()
      ensures State() == AuthModel.ConnectSocket(old(State()))
    {
      if authUser.None? || (socket.Some? && socket.value.connected) {
        return;
      }
      socket := Some(Handle(baseUrl, authUser.value.id, true));
      handlesCreated := handlesCreated + 1;
    }

    method DisconnectSocket()
      requires Valid()
      modifies this
      ensures Valid()
      ensures State() == AuthModel.DisconnectSocket(old(State()))
    {
      if socket.Some? && socket.value.connected {
        socket := Some(socket.value.(connected := false));
      }
    }

    /** A `getOnlineUsers` push on the current, connected handle. */
    method DeliverOnlineUsers(ids: seq<UserId>)
      requires Valid() && socket.Some? && socket.value.connected
      modifies this
      ensures Valid()
      ensures State() == AuthModel.DeliverOnlineUsers(old(State()), ids)
    {
      onlineUsers := ids;
    }

    method CheckAuth(o: Outcome) returns (settle: Settle, notice: Notice)
      requires Valid()
      modifies this
      ensures Valid()
      ensures Step(State(), settle, notice) == AuthModel.CheckAuth(old(State()), o)
    {
      notice := Silent;
      match o {
        case Ok(user) =>
          authUser := Some(user);
          ConnectSocket();
        case Err(_) =>
          authUser := None;
      }
      isCheckingAuth := false;
      settle := Resolved(None);
    }

    method Signup(o: Outcome) returns (settle: Settle, notice: Notice, ghost inFlight: Store)
      requires Valid()
      modifies this
      ensures Valid()
      ensures inFlight == SignupBegin(old(State()))
      ensures Step(State(), settle, notice) == AuthModel.Signup(old(State()), o)
    {
      isSigningUp := true;
      inFlight := State();
      match o {
        case Ok(user) =>
          authUser := Some(user);
          notice := SuccessToast(SignupText);
          ConnectSocket();
          settle := Resolved(None);
        case Err(e) =>
          if e.response.Some? {
            notice := ErrorToast(e.response.value.message);
            settle := Resolved(None);
          } else {
            notice := Silent;
            settle := Rejected(MissingResponse);
          }
      }
      isSigningUp := false;
    }

    method Login(o: Outcome) returns (settle: Settle, notice: Notice, ghost inFlight: Store)
      requires Valid()
      modifies this
      ensures Valid()
      ensures inFlight == LoginBegin(old(State()))
      ensures Step(State(), settle, notice) == AuthModel.Login(old(State()), o)
    {
      isLoggingIn := true;
      inFlight := State();
      match o {
        case Ok(user) =>
          authUser := Some(user);
          notice := SuccessToast(LoginText);
          ConnectSocket();
          settle := Resolved(None);
        case Err(e) =>
          if e.response.Some? {
            notice := ErrorToast(e.response.value.message);
            settle := Resolved(None);
          } else {
            notice := Silent;
            settle := Rejected(MissingResponse);
          }
      }
      isLoggingIn := false;
    }

    /** `err` is the error of the logout request, `None` when it succeeded. */
    method Logout(err: Option<HttpError>) returns (settle: Settle, notice: Notice)
      requires Valid()
      modifies this
      ensures Valid()
      ensures Step(State(), settle, notice) == AuthModel.Logout(old(State()), err)
    {
      match err {
        case None =>
          authUser := None;
          notice := SuccessToast(LogoutText);
          DisconnectSocket();
          settle := Resolved(None);
        case Some(e) =>
          if e.response.Some? {
            notice := ErrorToast(e.response.value.message);
            settle := Resolved(None);
          } else {
            notice := Silent;
            settle := Rejected(MissingResponse);
          }
      }
    }

    method UpdateProfile(o: Outcome) returns (settle: Settle, notice: Notice, ghost inFlight: Store)
      requires Valid()
      modifies this
      ensures Valid()
      ensures inFlight == UpdateProfileBegin(old(State()))
      ensures Step(State(), settle, notice) == AuthModel.UpdateProfile(old(State()), o)
    {
      isUpdatingProfile := true;
      inFlight := State();
      notice := Silent;
      match o {
        case Ok(user) =>
          authUser := Some(user);
          settle := Resolved(None);
        case Err(e) =>
          // Whether the server answered, no answer came, or the request could
          // not be built, the same error is propagated.
          settle := Rejected(Http(e));
      }
      isUpdatingProfile := false;
    }

    method UpdatePrivateKey(o: Outcome) returns (settle: Settle, notice: Notice)
      requires Valid()
      modifies this
      ensures Valid()
      ensures Step(State(), settle, notice) == AuthModel.UpdatePrivateKey(old(State()), o)
    {
      match o {
        case Ok(user) =>
          authUser := Some(user);
          notice := SuccessToast(PrivateKeyText);
          settle := Resolved(Some(user));
        case Err(e) =>
          notice := ErrorToast(Some(ShownMessage(e, PrivateKeyFallback)));
          settle := Rejected(Http(e));
      }
    }

    method GenerateNewPrivateKey(o: Outcome) returns (settle: Settle, notice: Notice)
      requires Valid()
      modifies this
      ensures Valid()
      ensures Step(State(), settle, notice) == AuthModel.GenerateNewPrivateKey(old(State()), o)
    {
      match o {
        case Ok(user) =>
          authUser := Some(user);
          notice := SuccessToast(GenerateKeyText);
          settle := Resolved(Some(user));
        case Err(e) =>
          notice := ErrorToast(Some(ShownMessage(e, GenerateKeyFallback)));
          settle := Rejected(Http(e));
      }
    }
  }

  /** A client of the store: what the method contracts alone let a caller
      conclude about a short session. */
  method ClientSession(development: bool, e: HttpError)
  {
    var store := new AuthStore(development);
    store.DisconnectSocket();
    assert store.State() == Initial(development);
    var u1 := User("u1", "key");
    var settle, notice, inFlight := store.Login(Ok(u1));
    assert inFlight.isLoggingIn;
    assert store.authUser == Some(u1) && !store.isLoggingIn;
    assert store.socket == Some(Handle(BaseUrl(development), "u1", true));
    settle, notice, inFlight := store.UpdateProfile(Err(e));
    assert settle == Rejected(Http(e)) && !store.isUpdatingProfile && store.authUser == Some(u1);
    store.ConnectSocket();
    assert store.handlesCreated == 1;
    store.DeliverOnlineUsers(["u2", "u3"]);
    store.DeliverOnlineUsers(["u3", "u4"]);
    assert store.onlineUsers == ["u3", "u4"];
    settle, notice := store.Logout(None);
    assert store.authUser.None? && !Connected(store.State());
    assert store.onlineUsers == ["u3", "u4"] && store.socket.Some?;
  }
}
