/** src/contexts/echo.tsx: the authentication session the UI reads. Six state
    fields are updated by re-reading the broker's CHECK_AUTH answer, by signing
    in and out through the broker, and by fetching the balance. Every reply of
    the extension's message channel is an input: `Resolved` with the reply, or
    `Rejected` with the message of `chrome.runtime.lastError`. */
module EchoContext {
  import opened Wrappers
  import opened EchoTypes

  /** The CHECK_AUTH reply as it arrives over the channel. */
  datatype AuthStatus = AuthStatus(isAuthenticated: bool, user: Option<EchoUser>, token: Option<string>)

  /** `checkAuthStatus`: a channel error rejects with its message; otherwise the
      reply's fields are taken over, a missing or empty token becoming `null`. */
  function CheckAuthStatus(reply: Settled<AuthStatus>): (r: Settled<AuthStatus>)
    ensures reply.Rejected? <==> r.Rejected?
    ensures reply.Rejected? ==> r.reason == reply.reason
    ensures reply.Resolved? ==>
      && r.value.isAuthenticated == reply.value.isAuthenticated
      && r.value.user == reply.value.user
      && (r.value.token == None <==> reply.value.token == None || reply.value.token == Some(""))
      && (r.value.token.Some? ==> r.value.token == reply.value.token)
  {
    match reply
    case Rejected(message) => Rejected(message)
    case Resolved(status) => Resolved(status.(token := if status.token == Some("") then None else status.token))
  }

  /** The provider's state: `user`, `isAuthenticated`, `balance`, `isLoading`,
      `error` and `token`. */
  datatype Session = Session(
    user: Option<EchoUser>,
    isAuthenticated: bool,
    balance: Option<EchoBalance>,
    isLoading: bool,
    error: Option<string>,
    token: Option<string>)

  /** The state on mount, before the first check has settled. */
  const InitialSession: Session := Session(None, false, None, true, None, None)

  /** `updateAuthState`: a settled check copies authentication, user and token
      and clears the error; a failed one signs the session out but keeps the
      error. Loading is over afterwards either way, and the balance is untouched. */
  function Updated(s: Session, reply: Settled<AuthStatus>): (r: Session)
    ensures !r.isLoading && r.balance == s.balance
    ensures reply.Resolved? ==>
      && r.isAuthenticated == reply.value.isAuthenticated && r.user == reply.value.user
      && r.error == None
      && (r.token == None <==> reply.value.token == None || reply.value.token == Some(""))
      && (r.token.Some? ==> r.token == reply.value.token)
    ensures reply.Rejected? ==> !r.isAuthenticated && r.user == None && r.token == None && r.error == s.error
  {
    match CheckAuthStatus(reply)
    case Resolved(status) =>
      s.(isAuthenticated := status.isAuthenticated, user := status.user, token := status.token,
         error := None, isLoading := false)
    case Rejected(_) =>
      s.(isAuthenticated := false, user := None, token := None, isLoading := false)
  }

  /** The keys whose change means the session may have changed. */
  const AuthKeys: seq<string> := ["echo_user", "echo_access_token", "echo_access_token_expires_at"]

  /** `keys.some(key => changes[key])` (a `StorageChange` record is always
      truthy, so this asks whether some key is among the changed ones). */
  function SomeChanged(keys: seq<string>, changed: set<string>): (r: bool)
    ensures r <==> exists i :: 0 <= i < |keys| && keys[i] in changed
    decreases |keys|
  {
    if keys == [] then false
    else if keys[0] in changed then true
    else
      var rest := SomeChanged(keys[1..], changed);
      assert forall i :: 1 <= i < |keys| ==> keys[i] == keys[1..][i - 1];
      rest
  }

  /** `hasAuthChanges`: the user, the access token or its expiry changed. */
  function HasAuthChanges(changed: set<string>): (r: bool)
    ensures r <==> "echo_user" in changed || "echo_access_token" in changed
                   || "echo_access_token_expires_at" in changed
  {
    var r := SomeChanged(AuthKeys, changed);
    assert AuthKeys[0] == "echo_user" && AuthKeys[1] == "echo_access_token";
    assert AuthKeys[2] == "echo_access_token_expires_at";
    r
  }

  /** The AUTHENTICATE reply as the sign-in reads it. */
  datatype SignInReply = SignInReply(success: bool, echoUser: Option<EchoUser>, error: Option<string>)

  const AuthenticationFailed: string := "Authentication failed"

  /** A sign-in succeeds when the channel answers and the reply has `success`
      and a user. */
  predicate SignInSucceeded(reply: Settled<SignInReply>) {
    reply.Resolved? && reply.value.success && reply.value.echoUser.Some?
  }

  /** The message recorded for a failed sign-in: the channel's message, the
      reply's error when non-empty, and "Authentication failed" otherwise. */
  function SignInError(reply: Settled<SignInReply>): (m: string)
    ensures reply.Rejected? ==> m == reply.reason
    ensures reply.Resolved? ==>
      m == (if reply.value.error.Some? && reply.value.error.value != "" then reply.value.error.value else AuthenticationFailed)
  {
    match reply
    case Rejected(message) => message
    case Resolved(r) => if r.error.Some? && r.error.value != "" then r.error.value else AuthenticationFailed
  }

  /** `signIn`: on success the session is re-read through `updateAuthState`;
      on any failure the message is recorded and the session is signed out with
      no balance. The error raised at the start is cleared, and loading is over
      at the end. */
  function SignedIn(s: Session, reply: Settled<SignInReply>, check: Settled<AuthStatus>): (r: Session)
    ensures !r.isLoading
    ensures SignInSucceeded(reply) ==> r == Updated(s.(error := None), check) && r.error == None
    ensures !SignInSucceeded(reply) ==>
      && r.error == Some(SignInError(reply))
      && !r.isAuthenticated && r.token == None && r.user == None && r.balance == None
  {
    var started := s.(isLoading := true, error := None);
    if SignInSucceeded(reply) then Updated(started, check)
    else
      started.(error := Some(SignInError(reply)), isAuthenticated := false, token := None,
               user := None, balance := None, isLoading := false)
  }

  /** `signOut`: once the broker acknowledged, the session is re-read; a channel
      error is recorded and nothing else changes. Loading is over at the end. */
  function SignedOut(s: Session, reply: Settled<()>, check: Settled<AuthStatus>): (r: Session)
    ensures !r.isLoading
    ensures reply.Resolved? ==> r == Updated(s, check)
    ensures reply.Rejected? ==> r == s.(error := Some(reply.reason), isLoading := false)
  {
    var started := s.(isLoading := true);
    match reply
    case Resolved(_) => Updated(started, check)
    case Rejected(message) => started.(error := Some(message), isLoading := false)
  }

  /** The balance record the SDK returns. */
  datatype SdkBalance = SdkBalance(totalPaid: real, totalSpent: real, balance: real)

  /** How `echoClient?.balance.getBalance()` settles: there is no client, it
      resolves with a balance or nothing, or it throws (the rejection is not
      handled, so the state is left as it was). */
  datatype BalanceFetch = NoClient | Fetched(result: Option<SdkBalance>) | Threw

  const DefaultCurrency: string := "USD"

  /** `refreshBalance`. */
  function WithBalance(s: Session, fetch: BalanceFetch): (r: Session)
    ensures r.(balance := s.balance) == s
    ensures fetch.Fetched? && fetch.result.Some? ==>
      var b := fetch.result.value;
      r.balance == Some(EchoBalance(b.totalPaid, b.totalSpent, b.balance, DefaultCurrency))
    ensures fetch.NoClient? || fetch == Fetched(None) ==> r.balance == None
    ensures fetch.Threw? ==> r == s
  {
    match fetch
    case NoClient => s.(balance := None)
    case Fetched(None) => s.(balance := None)
    case Fetched(Some(b)) => s.(balance := Some(EchoBalance(b.totalPaid, b.totalSpent, b.balance, DefaultCurrency)))
    case Threw => s
  }

  /** `getToken`: the reply's token, or `null` when the channel fails. The
      reply's token is returned as it is, an empty string included. */
  function GetToken(reply: Settled<Option<string>>): (t: Option<string>)
    ensures reply.Rejected? ==> t == None
    ensures reply.Resolved? ==> t == reply.value
  {
    match reply
    case Rejected(_) => None
    case Resolved(token) => token
  }

  /** The `EchoProvider` component's state and its handlers. */
  class EchoProvider {
    var user: Option<EchoUser>
    var isAuthenticated: bool
    var balance: Option<EchoBalance>
    var isLoading: bool
    var error: Option<string>
    var token: Option<string>

    function State(): Session
      reads this
    {
      Session(user, isAuthenticated, balance, isLoading, error, token)
    }

    constructor ()
      ensures State() == InitialSession
    {
      user, isAuthenticated, balance := None, false, None;
      isLoading, error, token := true, None, None;
    }

    method UpdateAuthState(reply: Settled<AuthStatus>)
      modifies this
      ensures State() == Updated(old(State()), reply)
    {
      var status := CheckAuthStatus(reply);
      if status.Resolved? {
        isAuthenticated := status.value.isAuthenticated;
        user := status.value.user;
        token := status.value.token;
        error := None;
      } else {
        isAuthenticated := false;
        user := None;
        token := None;
      }
      isLoading := false;
    }

    /** The `chrome.storage.onChanged` listener; `check` is the answer the
        re-check would get. */
    method HandleStorageChange(changed: set<string>, check: Settled<AuthStatus>)
      modifies this
      ensures State() == if HasAuthChanges(changed) then Updated(old(State()), check) else old(State())
    {
      if HasAuthChanges(changed) {
        UpdateAuthState(check);
      }
    }

    method SignIn(reply: Settled<SignInReply>, check: Settled<AuthStatus>)
      modifies this
      ensures State() == SignedIn(old(State()), reply, check)
    {
      isLoading := true;
      error := None;
      if SignInSucceeded(reply) {
        UpdateAuthState(check);
      } else {
        error := Some(SignInError(reply));
        isAuthenticated := false;
        token := None;
        user := None;
        balance := None;
      }
      isLoading := false;
    }

    method SignOut(reply: Settled<()>, check: Settled<AuthStatus>)
      modifies this
      ensures State() == SignedOut(old(State()), reply, check)
    {
      isLoading := true;
      if reply.Resolved? {
        UpdateAuthState(check);
      } else {
        error := Some(reply.reason);
      }
      isLoading := false;
    }

    method RefreshBalance(fetch: BalanceFetch)
      modifies this
      ensures State() == WithBalance(old(State()), fetch)
    {
      match fetch {
        case NoClient => balance := None;
        case Fetched(result) =>
          if result.Some? {
            var b := result.value;
            balance := Some(EchoBalance(b.totalPaid, b.totalSpent, b.balance, DefaultCurrency));
          } else {
            balance := None;
          }
        case Threw =>
      }
    }
  }
}

/** The session seen together with the broker that answers it. */
module EchoContextProofs {
  import opened Wrappers
  import opened EchoTypes
  import opened EchoContext
  import Background

  /** The CHECK_AUTH reply the broker sends, as the session receives it. */
  function StatusOf(store: Background.Store, now: int): AuthStatus {
    var r := Background.AuthStatus(store, now);
    AuthStatus(r.isAuthenticated, r.user, r.token)
  }

  /** Re-reading the session from the broker makes it consistent: signed in
      exactly with a stored user and a non-empty token, signed out with neither. */
  lemma UpdatedFromBroker(s: Session, store: Background.Store, now: int)
    requires Background.WellTyped(store)
    ensures var r := Updated(s, Resolved(StatusOf(store, now)));
      && (r.isAuthenticated ==> r.user.Some? && r.token.Some? && r.token.value != "")
      && (r.isAuthenticated ==> r.user == Background.StoredUser(store) && r.token == Background.StoredAccessToken(store))
      && (!r.isAuthenticated ==> r.user == None && r.token == None)
  {
    var st := StatusOf(store, now);
    if st.isAuthenticated {
      assert Background.Present(store, Background.UserKey);
      assert Background.Present(store, Background.AccessTokenKey);
      assert st.token == Background.StoredAccessToken(store);
    }
  }

  /** A sign-out the broker acknowledges leaves the session signed out with no
      user, no token and no error. */
  lemma SignOutEndsSession(s: Session, store: Background.Store, now: int)
    ensures var r := SignedOut(s, Resolved(()), Resolved(StatusOf(Background.Cleared(store), now)));
      && !r.isAuthenticated && r.user == None && r.token == None && r.error == None && !r.isLoading
  {
    var cleared := Background.Cleared(store);
    assert Background.UserKey !in cleared;
  }

  /** A sign-in the broker accepts, re-read at a time before the access token
      expires, leaves the session signed in with the response's user and token. */
  lemma SignInStartsSession(s: Session, store: Background.Store, auth: Background.AuthResponse, now: int)
    requires Background.SignInAccepted(auth)
    requires 0 <= now < auth.tokenData.value.accessTokenExpiresAt && auth.tokenData.value.accessToken != ""
    ensures var after := Background.AfterAuthenticate(store, auth);
      var r := SignedIn(s, Resolved(SignInReply(auth.success, auth.echoUser, auth.error)), Resolved(StatusOf(after, now)));
      && r.isAuthenticated && r.user == auth.echoUser && r.token == Some(auth.tokenData.value.accessToken)
      && r.error == None && !r.isLoading
  {
    var after := Background.AfterAuthenticate(store, auth);
    var t := auth.tokenData.value;
    assert after[Background.AccessTokenExpiresAtKey] == Background.NumberValue(t.accessTokenExpiresAt);
    assert Background.AccessTokenValid(after, now);
    assert Background.Present(after, Background.UserKey);
  }

  /** `getToken` answered by the broker: a still-valid stored token comes back
      as it is, and a failed refresh comes back as `null`. */
  lemma GetTokenThroughBroker(store: Background.Store, now: int, refresh: Background.RefreshResponse)
    ensures var served := Background.ServeToken(store, now, refresh);
      && (Background.AccessTokenValid(store, now) ==> GetToken(Resolved(served.token)) == Background.StoredAccessToken(store))
      && (!Background.AccessTokenValid(store, now) && !(refresh.success && refresh.tokenData.Some?) ==>
            GetToken(Resolved(served.token)) == None)
  {
  }

  /** The storage-change filter re-checks on the user, the access token and its
      expiry, and on nothing else the broker writes. */
  lemma {:induction false} AuthChangeKeys(changed: set<string>)
    ensures HasAuthChanges(changed) <==>
      exists k :: k in {Background.UserKey, Background.AccessTokenKey, Background.AccessTokenExpiresAtKey}
                  && Background.KeyName(k) in changed
  {
    if HasAuthChanges(changed) {
      if "echo_user" in changed { assert Background.KeyName(Background.UserKey) in changed; }
      else if "echo_access_token" in changed { assert Background.KeyName(Background.AccessTokenKey) in changed; }
      else { assert Background.KeyName(Background.AccessTokenExpiresAtKey) in changed; }
    }
  }

  /** A change touching only the refresh token and its expiry triggers nothing. */
  lemma RefreshOnlyChangeIgnored(changed: set<string>)
    requires changed <= {Background.KeyName(Background.RefreshTokenKey), Background.KeyName(Background.RefreshTokenExpiresAtKey)}
    ensures !HasAuthChanges(changed)
  {
  }

  /** Sign-in and sign-out always end with loading over, whatever the replies. */
  lemma HandlersEndLoading(s: Session, signIn: Settled<SignInReply>, signOut: Settled<()>, check: Settled<AuthStatus>)
    ensures !SignedIn(s, signIn, check).isLoading && !SignedOut(s, signOut, check).isLoading
  {
  }
}
