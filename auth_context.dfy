/**
 * The session store of src/services/authContext.jsx: the signed-in user, the
 * loading flag, and the `token`/`user` keys it keeps in browser storage. The
 * pure step functions say what each operation does to a `Session`; the
 * `AuthProvider` class performs the same operations in place and is proved
 * against them.
 */
module AuthContext {
  import opened Wrappers
  import opened Records
  import opened Browser
  import opened Api

  const OutsideProviderMessage := "useAuth must be used within an AuthProvider"

  /** What `/auth/login` and `/auth/register` answer with on success. */
  datatype AuthReply = AuthReply(user: Record, token: string)

  /** Everything the session operations read or write. */
  datatype Session = Session(user: Option<Record>, loading: bool, store: Store)

  /** The session a freshly mounted provider starts with, over whatever storage holds. */
  function InitialSession(store: Store): (s: Session)
    ensures s.user.None? && s.loading && s.store == store
  {
    Session(None, true, store)
  }

  /**
   * `checkAuth`: with a usable stored token the profile call is made; its user
   * becomes the in-memory user (storage is not written), and its failure
   * removes both keys, after the client's own 401 handling. Without a token
   * nothing but the loading flag changes. Loading always ends false.
   */
  function CheckAuthStep(s: Session, reply: Reply<Record>): (t: Session)
    ensures !t.loading
    ensures UsableToken(s.store.token).None? ==> t == s.(loading := false)
    ensures UsableToken(s.store.token).Some? && reply.Success? ==> t == s.(user := Some(reply.data), loading := false)
    ensures UsableToken(s.store.token).Some? && reply.Failure? ==>
              && t.user == s.user
              && t.store.token.None? && t.store.userItem.None?
              && t.store.href == AfterError(s.store, reply.error).href
  {
    if UsableToken(s.store.token).None? then s.(loading := false)
    else match reply
      case Success(u) => s.(user := Some(u), loading := false)
      case Failure(e) => s.(store := AfterError(s.store, e).(token := None, userItem := None), loading := false)
  }

  /**
   * `login` and `register` share this step: a success stores the token and the
   * user under both keys and signs the user in; a failure changes only what
   * the client's 401 handling changes.
   */
  function SignInStep(s: Session, reply: Reply<AuthReply>): (t: Session)
    ensures reply.Success? ==> t.user == Some(reply.data.user) && t.loading == s.loading
    ensures reply.Success? ==> t.store == s.store.(token := Some(reply.data.token), userItem := Some(reply.data.user))
    ensures reply.Failure? ==> t == s.(store := AfterError(s.store, reply.error))
  {
    match reply
    case Success(d) => s.(user := Some(d.user), store := s.store.(token := Some(d.token), userItem := Some(d.user)))
    case Failure(e) => s.(store := AfterError(s.store, e))
  }

  /** `logout`: both keys gone, nobody signed in, the window sent to `/login`. */
  function LogoutStep(s: Session): (t: Session)
    ensures t.user.None? && t.store.token.None? && t.store.userItem.None?
    ensures t.store.href == Some("/login") && t.loading == s.loading
  {
    s.(user := None, store := Store(None, None, Some("/login")))
  }

  /**
   * `updateUser`: the fields of `update` are spread over the current user (over
   * nothing when signed out); the result becomes the user and is written under
   * the `user` key; the token is not touched.
   */
  function UpdateUserStep(s: Session, update: Record): (t: Session)
    ensures t.user.Some? && t.store.userItem == t.user
    ensures forall k :: k in update ==> k in t.user.value && t.user.value[k] == update[k]
    ensures forall k :: s.user.Some? && k in s.user.value && k !in update ==> k in t.user.value && t.user.value[k] == s.user.value[k]
    ensures s.user.None? ==> t.user == Some(update)
    ensures s.user.Some? ==> t.user.value.Keys == s.user.value.Keys + update.Keys
    ensures t.store.token == s.store.token && t.store.href == s.store.href && t.loading == s.loading
  {
    var u := Spread(s.user, update);
    s.(user := Some(u), store := s.store.(userItem := Some(u)))
  }

  /** `useAuth` outside a provider throws; inside it hands back the provider's value. */
  function UseAuth(context: Option<AuthProvider>): (r: Result<AuthProvider, string>)
    ensures r.Err? <==> context.None?
    ensures r.Err? ==> r.error == OutsideProviderMessage
    ensures r.Ok? ==> context == Some(r.value)
  {
    match context
    case None => Err(OutsideProviderMessage)
    case Some(p) => Ok(p)
  }

  class AuthProvider {
    var user: Option<Record>
    var loading: bool
    const window: Window

    function State(): Session
      reads this, window
    {
      Session(user, loading, window.Snapshot())
    }

    constructor(window: Window)
      ensures this.window == window
      ensures State() == InitialSession(old(window.Snapshot()))
    {
      user := None;
      loading := true;
      this.window := window;
    }

    /** `checkAuth`; `reply` is what the profile call answers if it is made. */
    method CheckAuth(reply: Reply<Record>)
      modifies this, window
      ensures State() == CheckAuthStep(old(State()), reply)
    {
      var token := window.token;
      if token.Some? && token.value != "" {
        var result, _ := Send(window, AuthMe, reply);
        match result
        case Success(u) =>
          user := Some(u);
        case Failure(_) =>
          window.token := None;
          window.userItem := None;
      }
      loading := false;
    }

    /** The shared body of `login` and `register`: the call's outcome is returned or rethrown. */
    method SignIn(endpoint: Endpoint, reply: Reply<AuthReply>) returns (result: Reply<Record>)
      modifies this, window
      ensures State() == SignInStep(old(State()), reply)
      ensures reply.Success? ==> result == Success(reply.data.user)
      ensures reply.Failure? ==> result == Failure(reply.error)
    {
      var response, _ := Send(window, endpoint, reply);
      match response
      case Success(d) =>
        window.token := Some(d.token);
        window.userItem := Some(d.user);
        user := Some(d.user);
        result := Success(d.user);
      case Failure(e) =>
        result := Failure(e);
    }

    /** `login(email, password)`; the credentials only form the request body. */
    method Login(email: string, password: string, reply: Reply<AuthReply>) returns (result: Reply<Record>)
      modifies this, window
      ensures State() == SignInStep(old(State()), reply)
      ensures reply.Success? ==> result == Success(reply.data.user)
      ensures reply.Failure? ==> result == Failure(reply.error)
    {
      result := SignIn(AuthLogin, reply);
    }

    /** `register(userData)`; the registration record only forms the request body. */
    method Register(userData: Record, reply: Reply<AuthReply>) returns (result: Reply<Record>)
      modifies this, window
      ensures State() == SignInStep(old(State()), reply)
      ensures reply.Success? ==> result == Success(reply.data.user)
      ensures reply.Failure? ==> result == Failure(reply.error)
    {
      result := SignIn(AuthRegister, reply);
    }

    method Logout()
      modifies this, window
      ensures State() == LogoutStep(old(State()))
    {
      window.token := None;
      window.userItem := None;
      user := None;
      window.href := Some("/login");
    }

    method UpdateUser(update: Record)
      modifies this, window
      ensures State() == UpdateUserStep(old(State()), update)
    {
      var updated := Spread(user, update);
      user := Some(updated);
      window.userItem := Some(updated);
    }
  }

  /** The in-memory user is the one stored under the `user` key. */
  predicate Agrees(s: Session) {
    s.user == s.store.userItem
  }

  /** Signing in successfully leaves both keys stored and the user in agreement with storage. */
  lemma SignInPairsKeys(s: Session, d: AuthReply)
    ensures Paired(SignInStep(s, Success(d)).store) && Agrees(SignInStep(s, Success(d)))
  {
  }

  /** No session operation but `updateUser` can leave one key without the other. */
  lemma StepsKeepPairing(s: Session, me: Reply<Record>, signIn: Reply<AuthReply>)
    requires Paired(s.store)
    ensures Paired(CheckAuthStep(s, me).store)
    ensures Paired(SignInStep(s, signIn).store)
    ensures Paired(LogoutStep(s).store)
  {
    if signIn.Failure? {
      AfterErrorKeepsPairing(s.store, signIn.error);
    }
  }

  /** `updateUser` while signed out writes a `user` key with no token beside it. */
  lemma UpdateUserSignedOutUnpairs(s: Session, update: Record)
    requires s.store.token.None?
    ensures !Paired(UpdateUserStep(s, update).store)
  {
  }

  /** After `updateUser` the in-memory user and the stored one agree. */
  lemma UpdateUserAgrees(s: Session, update: Record)
    ensures Agrees(UpdateUserStep(s, update))
  {
  }

  /** `checkAuth` signs a user in without writing the `user` key, so storage can disagree with memory. */
  lemma CheckAuthDoesNotStoreUser(s: Session, u: Record)
    requires UsableToken(s.store.token).Some?
    requires s.store.userItem != Some(u)
    ensures !Agrees(CheckAuthStep(s, Success(u)))
  {
  }

  /** Logging out twice ends where logging out once does. */
  lemma LogoutIdempotent(s: Session)
    ensures LogoutStep(LogoutStep(s)) == LogoutStep(s)
  {
  }

  /** A failed sign-in that is not a 401 changes nothing; a 401 clears storage although no user was signed in by it. */
  lemma SignInFailure(s: Session, e: HttpError)
    ensures !IsUnauthorized(e) ==> SignInStep(s, Failure(e)) == s
    ensures IsUnauthorized(e) ==> SignInStep(s, Failure(e)).store == Store(None, None, Some("/login"))
    ensures SignInStep(s, Failure(e)).user == s.user
  {
  }

  /** A successful `updateUser` of no fields rewrites the stored user with the in-memory one. */
  lemma UpdateUserEmpty(s: Session)
    requires s.user.Some?
    ensures UpdateUserStep(s, map[]).user == s.user
  {
    assert s.user.value + map[] == s.user.value;
  }
}
