# Authentication store of the SocketSpeak chat client, in Dafny

The client keeps its session and presence state in one store object,
`useAuthStore` (`frontend/src/store/useAuthStore.js`). The store holds:

- the session `authUser`;
- four in-flight flags: `isSigningUp`, `isLoggingIn`, `isUpdatingProfile` and `isCheckingAuth`;
- the online-user list `onlineUsers`;
- at most one realtime connection handle `socket`.

Seven operations each make one HTTP call and then update the store by the
outcome: `checkAuth`, `signup`, `login`, `logout`, `updateProfile`,
`updatePrivateKey` and `generateNewPrivateKey`. The store has two more
operations, `connectSocket` and `disconnectSocket`, which open and close the
connection. The one connection takes a `getOnlineUsers` handler.

The model has three modules.

- `AuthModel` (`auth_model.dfy`) gives the store's state as a value, `Store`.
  It has one function per operation. The function takes the state before the
  operation and the outcome of its HTTP call (`Outcome = Ok(user) | Err(error)`).
  It returns a `Step`: the state once the operation has settled, how its promise
  settled (`Resolved`/`Rejected`), and the toast it showed. The contracts of
  these functions state what each operation does to the session, the flags
  and the connection.
- `UseAuthStore` (`auth_store.dfy`) has the class `AuthStore`. Its fields are
  the store's fields, plus a ghost count of the handles opened. Each operation
  is a method that updates the fields in place, in the source's order. Each
  method's `ensures` says that the new state is the one the matching
  `AuthModel` function gives. Signup, login and profile updates raise a flag
  before their request. For those three, a ghost out-parameter holds the state
  while the request is in flight, with the flag raised.
- `AuthTraces` (`auth_traces.dfy`) runs sequences of settled operations. It
  proves, by induction, what holds along every such sequence:
  - the store invariant;
  - that no flag is left raised;
  - that `isCheckingAuth` is only ever cleared;
  - that handles are opened only by connects, and never while one is connected;
  - that repeated connects and disconnects act like a single one.

The model follows the code in these places:

- The key operations have no in-flight flag.
- `checkAuth` never raises `isCheckingAuth`.
- `logout` calls `disconnectSocket` only on the success path (lines 62-67);
  a failed logout leaves the handle as it was.
- The signup, login and logout catch blocks throw when the error has no
  `response` (lines 39, 54, 67), because they read `error.response.data`.
  The operation then rejects (`Rejected(MissingResponse)`) and shows no
  toast; for signup and login the `finally` block still resets the flag.
- A failed `checkAuth` clears `authUser` but keeps a connected handle
  (`AuthTraces.CheckAuthFailureKeepsConnection`).

Some inputs are parameters here:

- the HTTP client's answers and errors are the `Outcome` argument and
  `logout`'s `err` argument;
- the build mode (`import.meta.env.MODE`) is the `development` argument of the
  constructor;
- a server push is a call of `DeliverOnlineUsers` with the pushed list.

## Model

| member | source | states |
|---|---|---|
| AuthModel.BaseUrl | frontend/src/store/useAuthStore.js:6 | the endpoint is the local development address exactly in development mode, and "/" otherwise |
| AuthModel.Initial | frontend/src/store/useAuthStore.js:9-15 | a new store has no session, `isCheckingAuth` up, the other three flags down, no online users, no handle and none opened |
| AuthModel.ConnectSocket | frontend/src/store/useAuthStore.js:124-135 | nothing changes iff there is no session or the handle is connected; otherwise exactly one new connected handle is opened, on the endpoint and with `userId` the session's id, and nothing else changes; a second connect is then a no-op; the invariant is kept |
| AuthModel.DisconnectSocket | frontend/src/store/useAuthStore.js:141-143 | afterwards no handle is connected; without a connected handle nothing changes; a connected handle is kept but marked not connected; the online users and everything else are unchanged |
| AuthModel.DeliverOnlineUsers | frontend/src/store/useAuthStore.js:137-139 | on a connected handle, the pushed list replaces `onlineUsers` verbatim (no merge) and no other field changes |
| AuthModel.CatchShowingServerMessage | frontend/src/store/useAuthStore.js:38-39 | the catch block of signup, login and logout rejects iff the error has no response (the TypeError); otherwise it resolves and shows the server's message as the error toast |
| AuthModel.ShownMessage | frontend/src/store/useAuthStore.js:106-108 | the key operations' error text is the server's non-empty message when there is one, and otherwise the fallback |
| AuthModel.CheckAuth | frontend/src/store/useAuthStore.js:17-29 | `isCheckingAuth` ends false, the other flags are unchanged, the promise always resolves silently; on success the record is the session and a connect is attempted, so a handle is connected; on failure the session is cleared and no connect is attempted |
| AuthModel.SignupBegin | frontend/src/store/useAuthStore.js:32 | while the request is in flight `isSigningUp` is up and nothing else has changed |
| AuthModel.Signup | frontend/src/store/useAuthStore.js:31-43 | `isSigningUp` ends false on every path and no other flag changes; on success the new user is the session, a connect is attempted and the success toast shows; on failure session and handle are unchanged and the catch block decides the settlement and toast |
| AuthModel.LoginBegin | frontend/src/store/useAuthStore.js:46 | while the request is in flight `isLoggingIn` is up and nothing else has changed |
| AuthModel.Login | frontend/src/store/useAuthStore.js:45-58 | `isLoggingIn` ends false on every path and no other flag changes; on success the user is the session, a connect is attempted and the success toast shows; on failure session and handle are unchanged and the catch block decides the settlement and toast |
| AuthModel.Logout | frontend/src/store/useAuthStore.js:60-69 | no flag changes; on success the session is cleared and no handle is connected afterwards; on failure the state is unchanged and the catch block decides the settlement and toast |
| AuthModel.UpdateProfileBegin | frontend/src/store/useAuthStore.js:72 | while the request is in flight `isUpdatingProfile` is up and nothing else has changed |
| AuthModel.UpdateProfile | frontend/src/store/useAuthStore.js:71-98 | `isUpdatingProfile` ends false on both paths, no other flag, the handle or the online users change and no toast shows; success makes the record the session; failure rejects with the same error and keeps the session |
| AuthModel.UpdatePrivateKey | frontend/src/store/useAuthStore.js:100-110 | no flag and nothing but the session changes; success makes the record the session and resolves with that record; failure keeps the state, shows the server message or fallback and rejects with the same error |
| AuthModel.GenerateNewPrivateKey | frontend/src/store/useAuthStore.js:112-122 | as for the private-key update, with its own toast texts |
| UseAuthStore.AuthStore.constructor | frontend/src/store/useAuthStore.js:8-15 | the fields start in the initial state and the invariant holds |
| UseAuthStore.AuthStore.ConnectSocket | frontend/src/store/useAuthStore.js:124-135 | the fields and the handle count become the connect transition of the old state |
| UseAuthStore.AuthStore.DisconnectSocket | frontend/src/store/useAuthStore.js:141-143 | the fields become the disconnect transition of the old state |
| UseAuthStore.AuthStore.DeliverOnlineUsers | frontend/src/store/useAuthStore.js:137-139 | the fields become the push transition of the old state |
| UseAuthStore.AuthStore.CheckAuth | frontend/src/store/useAuthStore.js:17-29 | new fields, settlement and toast are those of the check transition |
| UseAuthStore.AuthStore.Signup | frontend/src/store/useAuthStore.js:31-43 | the in-flight state has `isSigningUp` raised; new fields, settlement and toast are those of the signup transition |
| UseAuthStore.AuthStore.Login | frontend/src/store/useAuthStore.js:45-58 | the in-flight state has `isLoggingIn` raised; new fields, settlement and toast are those of the login transition |
| UseAuthStore.AuthStore.Logout | frontend/src/store/useAuthStore.js:60-69 | new fields, settlement and toast are those of the logout transition |
| UseAuthStore.AuthStore.UpdateProfile | frontend/src/store/useAuthStore.js:71-98 | the in-flight state has `isUpdatingProfile` raised; new fields, settlement and toast are those of the profile transition |
| UseAuthStore.AuthStore.UpdatePrivateKey | frontend/src/store/useAuthStore.js:100-110 | new fields, settlement and toast are those of the private-key transition |
| UseAuthStore.AuthStore.GenerateNewPrivateKey | frontend/src/store/useAuthStore.js:112-122 | new fields, settlement and toast are those of the key-generation transition |
| AuthTraces.RunKeepsInv | frontend/src/store/useAuthStore.js:124-143 | along any sequence of operations a handle is stored exactly when one has been opened, and it is on the store's endpoint |
| AuthTraces.RunLeavesNoFlagRaised | frontend/src/store/useAuthStore.js:31-98 | if the signup, login and profile flags are down, they are down again after any sequence of settled operations |
| AuthTraces.CheckingFlagOnlyCleared | frontend/src/store/useAuthStore.js:26-28 | after any sequence, `isCheckingAuth` is up iff it was up at the start and no check has settled (both directions) |
| AuthTraces.HandlesOnlyFromConnects | frontend/src/store/useAuthStore.js:124-135 | the handle count never decreases and grows by at most one per connect or successful check, signup or login |
| AuthTraces.NoHandleOpenedWhileConnected | frontend/src/store/useAuthStore.js:126 | from a connected handle, any run without a disconnect or a successful logout opens no handle and keeps that same handle stored (and so connected) |
| AuthTraces.RepeatedConnect | frontend/src/store/useAuthStore.js:126 | connecting n > 0 times equals connecting once, so at most one handle is opened |
| AuthTraces.RepeatedDisconnect | frontend/src/store/useAuthStore.js:142 | disconnecting n > 0 times equals disconnecting once |
| AuthTraces.CheckAuthFailureKeepsConnection | frontend/src/store/useAuthStore.js:23-25 | a failed check while connected clears the session and leaves the handle connected |
| AuthTraces.LoginWhileConnectedKeepsHandle | frontend/src/store/useAuthStore.js:49-52 | a login while connected makes the new user the session but keeps the existing handle |
| AuthTraces.LoginFromFreshStore | frontend/src/store/useAuthStore.js:45-58 | logging in from a new store makes the user the session, lowers `isLoggingIn` and opens one handle with that user's id |

## Left out

- The HTTP layer (`axiosInstance`): each call's result is the `Outcome`
  argument. The request payloads (credentials, profile data, the new private
  key) only go to the server, so they are not parameters.
- Toasts: each operation returns its toast as a `Notice`. Nothing is
  displayed. The `console.log` diagnostics are not modelled.
- `updateProfile` sorts a failure into three kinds (server answered, no
  answer, request not built), but only for logging. All three kinds reject
  with the same error, so the model has one error path.
- The socket.io transport (`io`, `socket.connect`, the handshake). A new
  handle counts as connected at once. So the window in which two quick
  connects could both open a handle is outside the model.
- AuthModel.DeliverOnlineUsers: requires a connected handle, because the
  `getOnlineUsers` handler is registered only when `connectSocket` opens a
  handle and a disconnected handle receives no events. In a run of
  operations (`AuthTraces.Apply`) a push with no connected handle is
  dropped, so `onlineUsers` stays as it was after a disconnect. The handler
  left on an earlier, replaced handle is not modelled.
- zustand's `create`/`set`/`get` and subscriptions: they are plain field
  reads and writes on one object.
- Interleaving of concurrently issued operations, such as a login racing a
  logout. Each method runs from call to settlement at once.
- Exceptions other than HTTP errors. A toast, `connectSocket` or a `set`
  could throw inside a `try` block; the model assumes none of them does.
- The response body of an error is taken to be an object. A `response`
  whose `data` is missing would make the signup, login and logout catch
  blocks throw as well; the model does not cover that case.
