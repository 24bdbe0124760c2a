/** The authentication slice of the client store: the `{loading, user, token,
    error}` state and its reducer over the pending / fulfilled / rejected
    actions of the login, register and current-user requests
    (src/redux/features/auth/authSlice.js). */
module AuthSlice {
  import opened Common

  /** A signed-in user as the server returns it; only its id is read elsewhere. */
  datatype User = User(id: string)

  datatype AuthState = AuthState(loading: bool, user: Option<User>, token: Option<string>, error: Option<string>)

  /** The three requests whose lifecycle drives the slice. */
  datatype Request = Login | Register | CurrentUser

  /** What a fulfilled request resolves with; `None` fields are absent ones. */
  datatype Reply = Reply(user: Option<User>, token: Option<string>)

  /** A lifecycle action. A fulfilled payload may be missing altogether, and a
      rejection carries the server's message when there was one. */
  datatype Action =
    | Pending(request: Request)
    | Fulfilled(request: Request, reply: Option<Reply>)
    | Rejected(request: Request, message: Option<string>)

  /** `x || null` for a string: an absent or empty string becomes null. */
  function OrNull(s: Option<string>): (r: Option<string>)
    ensures r.Some? <==> s.Some? && s.value != ""
    ensures r.Some? ==> r == s
  {
    if s.Some? && s.value != "" then s else None
  }

  /** The state on start-up: idle, nobody signed in, no error, and the token
      left in browser storage by an earlier login (`stored`), if it is not empty. */
  function InitialState(stored: Option<string>): (s: AuthState)
    ensures !s.loading && s.user.None? && s.error.None?
    ensures s.token.Some? <==> stored.Some? && stored.value != ""
    ensures s.token.Some? ==> s.token == stored
  {
    AuthState(false, None, OrNull(stored), None)
  }

  /** The message a rejection shows when it carries none of its own. */
  function DefaultMessage(r: Request): (m: string)
    ensures m != ""
  {
    match r
    case Login => "Login failed"
    case Register => "Registration failed"
    case CurrentUser => "Failed to fetch current user"
  }

  function UserOf(reply: Option<Reply>): Option<User>
  {
    if reply.Some? then reply.value.user else None
  }

  function TokenOf(reply: Option<Reply>): Option<string>
  {
    if reply.Some? then OrNull(reply.value.token) else None
  }

  /** The slice's reducer: one case per (request, lifecycle stage). */
  function Reduce(s: AuthState, a: Action): (s': AuthState)
    // every pending action starts loading, clears the error and keeps the session
    ensures a.Pending? ==> s'.loading && s'.error.None? && s'.user == s.user && s'.token == s.token
    // every settled action stops loading
    ensures !a.Pending? ==> !s'.loading
    // fulfilment replaces the user, never touches the error, and only login replaces the token
    ensures a.Fulfilled? ==> s'.user == UserOf(a.reply) && s'.error == s.error
    ensures a.Fulfilled? && a.request == Login ==> s'.token == TokenOf(a.reply)
    ensures a.Fulfilled? && a.request != Login ==> s'.token == s.token
    // rejection records a non-empty message and keeps the session
    ensures a.Rejected? ==> s'.user == s.user && s'.token == s.token
    ensures a.Rejected? ==> s'.error.Some? && s'.error.value != ""
    ensures a.Rejected? ==> s'.error == Some(if OrNull(a.message).Some? then a.message.value else DefaultMessage(a.request))
  {
    match a
    case Pending(_) =>
      s.(loading := true, error := None)
    case Fulfilled(Login, reply) =>
      s.(loading := false, user := UserOf(reply), token := TokenOf(reply))
    case Fulfilled(_, reply) =>
      s.(loading := false, user := UserOf(reply))
    case Rejected(r, message) =>
      s.(loading := false, error := Some(if OrNull(message).Some? then message.value else DefaultMessage(r)))
  }

  /** The state after dispatching `actions` in order. */
  function Run(s: AuthState, actions: seq<Action>): AuthState
    decreases |actions|
  {
    if actions == [] then s else Run(Reduce(s, actions[0]), actions[1..])
  }

  /** A request that is started and then succeeds leaves no error behind. */
  lemma {:induction false} PendingThenFulfilledClearsError(s: AuthState, r: Request, r': Request, reply: Option<Reply>)
    ensures Run(s, [Pending(r), Fulfilled(r', reply)]).error.None?
    ensures !Run(s, [Pending(r), Fulfilled(r', reply)]).loading
  {
    var s1 := Reduce(s, Pending(r));
    assert [Pending(r), Fulfilled(r', reply)][1..] == [Fulfilled(r', reply)];
    assert Run(s1, [Fulfilled(r', reply)]) == Run(Reduce(s1, Fulfilled(r', reply)), []);
  }

  /** After any non-empty run, `loading` says exactly whether the last action was a pending one. */
  lemma {:induction false} LoadingTracksLastAction(s: AuthState, actions: seq<Action>)
    requires actions != []
    ensures Run(s, actions).loading <==> actions[|actions| - 1].Pending?
    decreases |actions|
  {
    if |actions| > 1 {
      LoadingTracksLastAction(Reduce(s, actions[0]), actions[1..]);
    }
  }

  /** Only a fulfilled login changes the token: a run without one keeps it. */
  lemma {:induction false} TokenOnlyChangedByLogin(s: AuthState, actions: seq<Action>)
    requires forall i :: 0 <= i < |actions| ==> !(actions[i].Fulfilled? && actions[i].request == Login)
    ensures Run(s, actions).token == s.token
    decreases |actions|
  {
    if actions != [] {
      TokenOnlyChangedByLogin(Reduce(s, actions[0]), actions[1..]);
    }
  }

  /** Only a fulfilled action changes the user: a run of pending and rejected
      actions keeps whoever was signed in. */
  lemma {:induction false} UserOnlyChangedByFulfilment(s: AuthState, actions: seq<Action>)
    requires forall i :: 0 <= i < |actions| ==> !actions[i].Fulfilled?
    ensures Run(s, actions).user == s.user
    decreases |actions|
  {
    if actions != [] {
      UserOnlyChangedByFulfilment(Reduce(s, actions[0]), actions[1..]);
    }
  }

  /** An error, once there, stays until the next pending action clears it:
      a run with no pending action never erases it. */
  lemma {:induction false} ErrorClearedOnlyByPending(s: AuthState, actions: seq<Action>)
    requires s.error.Some?
    requires forall i :: 0 <= i < |actions| ==> !actions[i].Pending?
    ensures Run(s, actions).error.Some?
    decreases |actions|
  {
    if actions != [] {
      ErrorClearedOnlyByPending(Reduce(s, actions[0]), actions[1..]);
    }
  }
}
