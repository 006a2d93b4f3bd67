/**
 * Sequences of store operations, each already settled, and what stays true
 * along any such sequence. Operations issued concurrently are not
 * interleaved here: every operation settles before the next one starts.
 */
module AuthTraces {
  import opened AuthModel

  /** One settled store operation with the outcome of its HTTP call. */
  datatype Op =
    | CheckAuthOp(o: Outcome)
    | SignupOp(o: Outcome)
    | LoginOp(o: Outcome)
    | LogoutOp(err: Option<HttpError>)
    | UpdateProfileOp(o: Outcome)
    | UpdatePrivateKeyOp(o: Outcome)
    | GenerateNewPrivateKeyOp(o: Outcome)
    | ConnectOp
    | DisconnectOp
    | PushOp(ids: seq<UserId>)

  /** The state after `op`. A push arrives only through the `getOnlineUsers`
      handler of a connected handle; with no handle, or a disconnected one,
      nothing is delivered. */
  function Apply(s: Store, op: Op): Store {
    match op
    case CheckAuthOp(o) => CheckAuth(s, o).after
    case SignupOp(o) => Signup(s, o).after
    case LoginOp(o) => Login(s, o).after
    case LogoutOp(err) => Logout(s, err).after
    case UpdateProfileOp(o) => UpdateProfile(s, o).after
    case UpdatePrivateKeyOp(o) => UpdatePrivateKey(s, o).after
    case GenerateNewPrivateKeyOp(o) => GenerateNewPrivateKey(s, o).after
    case ConnectOp => ConnectSocket(s)
    case DisconnectOp => DisconnectSocket(s)
    case PushOp(ids) => if Connected(s) then DeliverOnlineUsers(s, ids) else s
  }

  function Run(s: Store, ops: seq<Op>): Store
    decreases |ops|
  {
    if ops == [] then s else Run(Apply(s, ops[0]), ops[1..])
  }

  /** `op` repeated `n` times. */
  function Repeat(op: Op, n: nat): (ops: seq<Op>)
    ensures |ops| == n
  {
    if n == 0 then [] else [op] + Repeat(op, n - 1)
  }

  /** The operation may open a handle: a direct connect, or a successful
      check, signup or login, which each request a connect. */
  predicate MayConnect(op: Op) {
    op.ConnectOp? ||
    (op.CheckAuthOp? && op.o.Ok?) || (op.SignupOp? && op.o.Ok?) || (op.LoginOp? && op.o.Ok?)
  }

  function ConnectAttempts(ops: seq<Op>): nat
    decreases |ops|
  {
    if ops == [] then 0 else (if MayConnect(ops[0]) then 1 else 0) + ConnectAttempts(ops[1..])
  }

  predicate NoFlagRaised(s: Store) {
    !s.isSigningUp && !s.isLoggingIn && !s.isUpdatingProfile
  }

  predicate HasCheckAuth(ops: seq<Op>) {
    exists i :: 0 <= i < |ops| && ops[i].CheckAuthOp?
  }

  /** Every operation keeps the invariant, so every reachable state has it. */
  lemma {:induction false} RunKeepsInv(s: Store, ops: seq<Op>)
    requires Inv(s)
    ensures Inv(Run(s, ops))
    decreases |ops|
  {
    if ops != [] {
      RunKeepsInv(Apply(s, ops[0]), ops[1..]);
    }
  }

  /** After every settled operation the signup, login and profile flags are
      down again: no flag is left raised on any path. */
  lemma {:induction false} RunLeavesNoFlagRaised(s: Store, ops: seq<Op>)
    requires NoFlagRaised(s)
    ensures NoFlagRaised(Run(s, ops))
    decreases |ops|
  {
    if ops != [] {
      RunLeavesNoFlagRaised(Apply(s, ops[0]), ops[1..]);
    }
  }

  /** `isCheckingAuth` is only ever cleared: it is still up exactly when it
      was up at the start and no check has settled since. */
  lemma {:induction false} CheckingFlagOnlyCleared(s: Store, ops: seq<Op>)
    ensures Run(s, ops).isCheckingAuth <==> s.isCheckingAuth && !HasCheckAuth(ops)
    decreases |ops|
  {
    if ops != [] {
      var t := Apply(s, ops[0]);
      CheckingFlagOnlyCleared(t, ops[1..]);
      assert t.isCheckingAuth <==> s.isCheckingAuth && !ops[0].CheckAuthOp?;
      if HasCheckAuth(ops[1..]) {
        var i :| 0 <= i < |ops[1..]| && ops[1..][i].CheckAuthOp?;
        assert ops[i + 1].CheckAuthOp?;
      }
      if HasCheckAuth(ops) && !ops[0].CheckAuthOp? {
        var i :| 0 <= i < |ops| && ops[i].CheckAuthOp?;
        assert ops[1..][i - 1].CheckAuthOp?;
      }
      if ops[0].CheckAuthOp? {
        assert HasCheckAuth(ops) by { assert ops[0].CheckAuthOp?; }
      }
    }
  }

  /** Handles are opened only by operations that request a connect, at most
      one each; profile updates, key operations, logouts and pushes never
      open one. */
  lemma {:induction false} HandlesOnlyFromConnects(s: Store, ops: seq<Op>)
    ensures s.created <= Run(s, ops).created <= s.created + ConnectAttempts(ops)
    decreases |ops|
  {
    if ops != [] {
      var t := Apply(s, ops[0]);
      assert s.created <= t.created <= s.created + (if MayConnect(ops[0]) then 1 else 0);
      HandlesOnlyFromConnects(t, ops[1..]);
    }
  }

  /** The operation leaves a connected handle in place: a disconnect or a
      successful logout. */
  predicate MayDisconnect(op: Op) {
    op.DisconnectOp? || (op.LogoutOp? && op.err.None?)
  }

  /** While a handle is connected, no operation opens another: along any run
      without a disconnect or a successful logout, the same handle stays
      stored and connected and the count of opened handles does not move. */
  lemma {:induction false} NoHandleOpenedWhileConnected(s: Store, ops: seq<Op>)
    requires Connected(s)
    requires forall i :: 0 <= i < |ops| ==> !MayDisconnect(ops[i])
    ensures Run(s, ops).created == s.created
    ensures Run(s, ops).socket == s.socket
    decreases |ops|
  {
    if ops != [] {
      var t := Apply(s, ops[0]);
      assert !MayDisconnect(ops[0]);
      assert t.created == s.created && t.socket == s.socket;
      assert forall i :: 0 <= i < |ops[1..]| ==> !MayDisconnect(ops[1..][i]) by {
        forall i | 0 <= i < |ops[1..]| ensures !MayDisconnect(ops[1..][i]) {
          assert ops[1..][i] == ops[i + 1];
        }
      }
      NoHandleOpenedWhileConnected(t, ops[1..]);
    }
  }

  /** Connecting `n` times does what one connect does: at most one handle is
      opened, and none while already connected or without a session. */
  lemma {:induction false} RepeatedConnect(s: Store, n: nat)
    requires n > 0
    ensures Run(s, Repeat(ConnectOp, n)) == ConnectSocket(s)
    ensures Run(s, Repeat(ConnectOp, n)).created <= s.created + 1
    decreases n
  {
    var ops := Repeat(ConnectOp, n);
    assert ops[0] == ConnectOp && ops[1..] == Repeat(ConnectOp, n - 1);
    if n > 1 {
      RepeatedConnect(ConnectSocket(s), n - 1);
    }
  }

  /** Disconnecting `n` times does what one disconnect does. */
  lemma {:induction false} RepeatedDisconnect(s: Store, n: nat)
    requires n > 0
    ensures Run(s, Repeat(DisconnectOp, n)) == DisconnectSocket(s)
    decreases n
  {
    var ops := Repeat(DisconnectOp, n);
    assert ops[0] == DisconnectOp && ops[1..] == Repeat(DisconnectOp, n - 1);
    if n > 1 {
      RepeatedDisconnect(DisconnectSocket(s), n - 1);
    }
  }

  /** A failed check while connected clears the session but leaves the
      handle connected: being connected does not imply being logged in. */
  lemma CheckAuthFailureKeepsConnection(s: Store, e: HttpError)
    requires Connected(s)
    ensures CheckAuth(s, Err(e)).after.authUser.None?
    ensures Connected(CheckAuth(s, Err(e)).after)
  {
  }

  /** A login while already connected keeps the existing handle, which was
      opened with the earlier user's identifier. */
  lemma LoginWhileConnectedKeepsHandle(s: Store, u: User)
    requires Connected(s)
    ensures Login(s, Ok(u)).after.socket == s.socket
    ensures Login(s, Ok(u)).after.authUser == Some(u)
  {
  }

  /** A successful login with a fresh store opens one handle whose query is
      the new user's identifier. */
  lemma LoginFromFreshStore(development: bool, u: User)
    ensures Login(Initial(development), Ok(u)).after.authUser == Some(u)
    ensures Login(Initial(development), Ok(u)).after.socket == Some(Handle(BaseUrl(development), u.id, true))
    ensures Login(Initial(development), Ok(u)).after.created == 1
    ensures !Login(Initial(development), Ok(u)).after.isLoggingIn
  {
  }
}
