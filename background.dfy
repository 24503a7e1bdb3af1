/** The extension's background service worker (src/background.ts:35-220): the
    only holder of credentials. `chrome.storage.local` is a map over the five
    `echo_*` keys; each action of the `onMessage` switch is a method on that
    map. The clock (`Date.now()`), the unseen `authenticate`/`refreshTokens`
    exchanges, the active-tab query and the script injection are inputs. */
module Background {
  import opened Wrappers
  import opened EchoTypes
  import Extraction
  import opened TabContentLib

  // ----- storage ---------------------------------------------------------------

  datatype Key = UserKey | AccessTokenKey | RefreshTokenKey | AccessTokenExpiresAtKey | RefreshTokenExpiresAtKey

  /** The storage key each constructor stands for. */
  function KeyName(k: Key): string {
    match k
    case UserKey => "echo_user"
    case AccessTokenKey => "echo_access_token"
    case RefreshTokenKey => "echo_refresh_token"
    case AccessTokenExpiresAtKey => "echo_access_token_expires_at"
    case RefreshTokenExpiresAtKey => "echo_refresh_token_expires_at"
  }

  const AllKeys: set<Key> := {UserKey, AccessTokenKey, RefreshTokenKey, AccessTokenExpiresAtKey, RefreshTokenExpiresAtKey}
  /** The four keys a refresh writes: all but the user. */
  const TokenKeys: set<Key> := {AccessTokenKey, RefreshTokenKey, AccessTokenExpiresAtKey, RefreshTokenExpiresAtKey}

  datatype Value = UserValue(user: EchoUser) | TextValue(text: string) | NumberValue(number: int)

  type Store = map<Key, Value>

  /** JavaScript truthiness of a stored value: an object always, a string when
      non-empty, a number when non-zero. */
  predicate Truthy(v: Value) {
    match v
    case UserValue(_) => true
    case TextValue(s) => s != ""
    case NumberValue(n) => n != 0
  }

  /** `result.key` is truthy. */
  predicate Present(store: Store, k: Key) {
    k in store && Truthy(store[k])
  }

  /** Each key holds what the broker writes under it. */
  predicate WellTyped(store: Store) {
    && (UserKey in store ==> store[UserKey].UserValue?)
    && (AccessTokenKey in store ==> store[AccessTokenKey].TextValue?)
    && (RefreshTokenKey in store ==> store[RefreshTokenKey].TextValue?)
    && (AccessTokenExpiresAtKey in store ==> store[AccessTokenExpiresAtKey].NumberValue?)
    && (RefreshTokenExpiresAtKey in store ==> store[RefreshTokenExpiresAtKey].NumberValue?)
  }

  function StoredUser(store: Store): Option<EchoUser> {
    if UserKey in store && store[UserKey].UserValue? then Some(store[UserKey].user) else None
  }

  function StoredAccessToken(store: Store): Option<string> {
    if AccessTokenKey in store && store[AccessTokenKey].TextValue? then Some(store[AccessTokenKey].text) else None
  }

  /** `result.echo_access_token && result.echo_access_token_expires_at && now < result.echo_access_token_expires_at`. */
  predicate AccessTokenValid(store: Store, now: int) {
    && Present(store, AccessTokenKey)
    && Present(store, AccessTokenExpiresAtKey)
    && store[AccessTokenExpiresAtKey].NumberValue?
    && now < store[AccessTokenExpiresAtKey].number
  }

  // ----- requests, foreign outcomes and replies --------------------------------

  /** The `action` of an incoming message. The client id and base URL that
      AUTHENTICATE, GET_TOKEN and REFRESH_TOKEN carry only reach the unseen
      exchanges, so they are not modelled. */
  datatype Request =
    | Authenticate | GetUser | GetToken | RefreshToken | CheckAuth | SignOut | GetTabContent
    | Unknown(action: string)

  /** What `authenticate` hands its callback. */
  datatype AuthResponse = AuthResponse(success: bool, echoUser: Option<EchoUser>, tokenData: Option<TokenData>, error: Option<string>)

  /** What `refreshTokens` hands its callback (the refresh grant of RFC 6749 section 6). */
  datatype RefreshResponse = RefreshResponse(success: bool, tokenData: Option<TokenData>, error: Option<string>)

  /** `tabs[0]` of the active-tab query. */
  datatype Tab = Tab(id: Option<int>, url: Option<string>, title: Option<string>)

  /** How `chrome.scripting.executeScript` ends: it throws, it yields no
      `results[0].result`, or the injected routine ran on a page. */
  datatype ScriptOutcome = ScriptFailed | NoResult | Ran(page: Extraction.Page)

  /** Everything outside the worker that one message's handling depends on. */
  datatype Env = Env(now: int, auth: AuthResponse, refresh: RefreshResponse, activeTab: Option<Tab>, script: ScriptOutcome)

  datatype Reply =
    | AuthReply(response: AuthResponse)
    | UserReply(user: Option<EchoUser>)
    | TokenReply(token: Option<string>)
    | AuthStatusReply(isAuthenticated: bool, user: Option<EchoUser>, token: Option<string>)
    | SignOutReply(success: bool)
    | TabContentReply(tab: TabContent)

  // ----- what each action does to storage, as functions ----------------------------

  /** The sign-in is stored only when it succeeded and carries a user and tokens. */
  predicate SignInAccepted(r: AuthResponse) {
    r.success && r.echoUser.Some? && r.tokenData.Some?
  }

  /** `chrome.storage.local.set` of the four token keys. */
  function WithTokens(store: Store, t: TokenData): (s: Store)
    ensures s.Keys == store.Keys + TokenKeys
    ensures forall k :: k in store && k !in TokenKeys ==> s[k] == store[k]
    ensures StoredAccessToken(s) == Some(t.accessToken)
    ensures s[AccessTokenExpiresAtKey] == NumberValue(t.accessTokenExpiresAt)
    ensures s[RefreshTokenKey] == TextValue(t.refreshToken)
    ensures s[RefreshTokenExpiresAtKey] == NumberValue(t.refreshTokenExpiresAt)
  {
    store[AccessTokenKey := TextValue(t.accessToken)]
         [AccessTokenExpiresAtKey := NumberValue(t.accessTokenExpiresAt)]
         [RefreshTokenKey := TextValue(t.refreshToken)]
         [RefreshTokenExpiresAtKey := NumberValue(t.refreshTokenExpiresAt)]
  }

  /** AUTHENTICATE: an accepted sign-in writes exactly the five keys from the
      response; anything else leaves storage as it was. */
  function AfterAuthenticate(store: Store, r: AuthResponse): (s: Store)
    ensures SignInAccepted(r) ==> s.Keys == store.Keys + AllKeys
    ensures SignInAccepted(r) ==> StoredUser(s) == r.echoUser && s == WithTokens(store, r.tokenData.value)[UserKey := s[UserKey]]
    ensures !SignInAccepted(r) ==> s == store
  {
    if SignInAccepted(r) then
      var t := r.tokenData.value;
      store[UserKey := UserValue(r.echoUser.value)]
           [AccessTokenKey := TextValue(t.accessToken)]
           [RefreshTokenKey := TextValue(t.refreshToken)]
           [AccessTokenExpiresAtKey := NumberValue(t.accessTokenExpiresAt)]
           [RefreshTokenExpiresAtKey := NumberValue(t.refreshTokenExpiresAt)]
    else store
  }

  /** The storage and the answer after GET_TOKEN or REFRESH_TOKEN, and whether
      `refreshTokens` was called. */
  datatype TokenResult = TokenResult(store: Store, token: Option<string>, refreshed: bool)

  /** GET_TOKEN / REFRESH_TOKEN: a valid stored token is returned as it is;
      otherwise a refresh is made, whose tokens are stored and whose access token
      is returned on success, and `null` is returned on failure. */
  function ServeToken(store: Store, now: int, refresh: RefreshResponse): (r: TokenResult)
    ensures !r.refreshed <==> AccessTokenValid(store, now)
    ensures !r.refreshed ==> r.store == store && r.token == StoredAccessToken(store)
    ensures r.refreshed && refresh.success && refresh.tokenData.Some? ==>
      && r.store == WithTokens(store, refresh.tokenData.value)
      && r.token == Some(refresh.tokenData.value.accessToken)
    ensures r.refreshed && !(refresh.success && refresh.tokenData.Some?) ==> r.store == store && r.token == None
    ensures (UserKey in r.store <==> UserKey in store) && (UserKey in store ==> r.store[UserKey] == store[UserKey])
  {
    if AccessTokenValid(store, now) then TokenResult(store, StoredAccessToken(store), false)
    else if refresh.success && refresh.tokenData.Some? then
      TokenResult(WithTokens(store, refresh.tokenData.value), Some(refresh.tokenData.value.accessToken), true)
    else TokenResult(store, None, true)
  }

  /** CHECK_AUTH: authenticated exactly when a user, an access token and an
      unexpired expiry are stored; user and token are reported only then. */
  function AuthStatus(store: Store, now: int): (r: Reply)
    ensures r.AuthStatusReply?
    ensures r.isAuthenticated <==> Present(store, UserKey) && AccessTokenValid(store, now)
    ensures r.user == (if r.isAuthenticated then StoredUser(store) else None)
    ensures r.token == (if r.isAuthenticated then StoredAccessToken(store) else None)
  {
    var isAuthenticated := Present(store, UserKey) && AccessTokenValid(store, now);
    AuthStatusReply(
      isAuthenticated,
      if isAuthenticated then StoredUser(store) else None,
      if isAuthenticated then StoredAccessToken(store) else None)
  }

  /** SIGN_OUT: `chrome.storage.local.remove` of the five keys. */
  function Cleared(store: Store): (s: Store)
    ensures s.Keys == store.Keys - AllKeys
    ensures StoredUser(s) == None && StoredAccessToken(s) == None
  {
    store - AllKeys
  }

  /** GET_TAB_CONTENT: no active tab (or a falsy id) gives all nulls; a failed
      injection gives no content and the tab's own URL and title; otherwise the
      extracted text (an empty one counts as none) with the page's URL and
      title, falling back to the tab's when those are empty. */
  function TabContentFor(activeTab: Option<Tab>, script: ScriptOutcome): TabContent {
    if activeTab.None? || activeTab.value.id.None? || activeTab.value.id.value == 0 then
      TabContent(None, None, None)
    else
      var tab := activeTab.value;
      match script
      case ScriptFailed => TabContent(None, tab.url, tab.title)
      case NoResult => TabContent(None, tab.url, tab.title)
      case Ran(page) =>
        var content := Extraction.CleanText(Extraction.CloneText(Extraction.ChosenElement(page)));
        TabContent(
          if content != "" then Some(content) else None,
          if page.href != "" then Some(page.href) else tab.url,
          if page.title != "" then Some(page.title) else tab.title)
  }

  /** One message: the new storage and the reply sent, if any. */
  function Handle(store: Store, request: Request, env: Env): (Store, Option<Reply>) {
    match request
    case Authenticate => (AfterAuthenticate(store, env.auth), Some(AuthReply(env.auth)))
    case GetUser => (store, Some(UserReply(StoredUser(store))))
    case GetToken =>
      var r := ServeToken(store, env.now, env.refresh);
      (r.store, Some(TokenReply(r.token)))
    case RefreshToken =>
      var r := ServeToken(store, env.now, env.refresh);
      (r.store, Some(TokenReply(r.token)))
    case CheckAuth => (store, Some(AuthStatus(store, env.now)))
    case SignOut => (Cleared(store), Some(SignOutReply(true)))
    case GetTabContent => (store, Some(TabContentReply(TabContentFor(env.activeTab, env.script))))
    case Unknown(_) => (store, None)
  }

  // ----- the worker ------------------------------------------------------------------

  class Broker {
    /** `chrome.storage.local`. */
    var store: Store

    ghost predicate Valid()
      reads this
    {
      WellTyped(store)
    }

    constructor (initial: Store)
      requires WellTyped(initial)
      ensures Valid() && store == initial
    {
      store := initial;
    }

    /** The `onMessage` listener: one case per action; an unknown action gets
        no reply. */
    method OnMessage(request: Request, env: Env) returns (reply: Option<Reply>)
      requires Valid()
      modifies this
      ensures Valid()
      ensures (store, reply) == Handle(old(store), request, env)
    {
      match request {
        case Authenticate =>
          var r := AuthenticateAction(env.auth);
          reply := Some(r);
        case GetUser =>
          reply := Some(UserReply(StoredUser(store)));
        case GetToken =>
          var token := ServeTokenAction(env.now, env.refresh);
          reply := Some(TokenReply(token));
        case RefreshToken =>
          var token := ServeTokenAction(env.now, env.refresh);
          reply := Some(TokenReply(token));
        case CheckAuth =>
          var r := CheckAuthAction(env.now);
          reply := Some(r);
        case SignOut =>
          var r := SignOutAction();
          reply := Some(r);
        case GetTabContent =>
          var tab := GetTabContentAction(env.activeTab, env.script);
          reply := Some(TabContentReply(tab));
        case Unknown(_) =>
          reply := None;
      }
    }

    /** AUTHENTICATE: store an accepted sign-in, then forward the response as it is. */
    method AuthenticateAction(response: AuthResponse) returns (reply: Reply)
      requires Valid()
      modifies this
      ensures Valid()
      ensures store == AfterAuthenticate(old(store), response)
      ensures reply == AuthReply(response)
    {
      if response.success && response.echoUser.Some? && response.tokenData.Some? {
        var t := response.tokenData.value;
        store := store[UserKey := UserValue(response.echoUser.value)]
                      [AccessTokenKey := TextValue(t.accessToken)]
                      [RefreshTokenKey := TextValue(t.refreshToken)]
                      [AccessTokenExpiresAtKey := NumberValue(t.accessTokenExpiresAt)]
                      [RefreshTokenExpiresAtKey := NumberValue(t.refreshTokenExpiresAt)];
      }
      reply := AuthReply(response);
    }

    /** GET_TOKEN and REFRESH_TOKEN (both cases run the same code). */
    method ServeTokenAction(now: int, refresh: RefreshResponse) returns (token: Option<string>)
      requires Valid()
      modifies this
      ensures Valid()
      ensures store == ServeToken(old(store), now, refresh).store
      ensures token == ServeToken(old(store), now, refresh).token
    {
      if Present(store, AccessTokenKey) && Present(store, AccessTokenExpiresAtKey)
         && store[AccessTokenExpiresAtKey].NumberValue? && now < store[AccessTokenExpiresAtKey].number {
        token := Some(store[AccessTokenKey].text);
      } else if refresh.success && refresh.tokenData.Some? {
        var t := refresh.tokenData.value;
        store := store[AccessTokenKey := TextValue(t.accessToken)]
                      [AccessTokenExpiresAtKey := NumberValue(t.accessTokenExpiresAt)]
                      [RefreshTokenKey := TextValue(t.refreshToken)]
                      [RefreshTokenExpiresAtKey := NumberValue(t.refreshTokenExpiresAt)];
        token := Some(t.accessToken);
      } else {
        token := None;
      }
    }

    /** CHECK_AUTH: a read of three keys. */
    method CheckAuthAction(now: int) returns (reply: Reply)
      requires Valid()
      ensures reply == AuthStatus(store, now)
    {
      var isAuthenticated := Present(store, UserKey) && Present(store, AccessTokenKey)
        && Present(store, AccessTokenExpiresAtKey) && store[AccessTokenExpiresAtKey].NumberValue?
        && now < store[AccessTokenExpiresAtKey].number;
      reply := AuthStatusReply(
        isAuthenticated,
        if isAuthenticated then Some(store[UserKey].user) else None,
        if isAuthenticated then Some(store[AccessTokenKey].text) else None);
    }

    /** SIGN_OUT: remove the five keys and answer success. */
    method SignOutAction() returns (reply: Reply)
      requires Valid()
      modifies this
      ensures Valid()
      ensures store == Cleared(old(store))
      ensures reply == SignOutReply(true)
    {
      store := store - {UserKey, AccessTokenKey, RefreshTokenKey, AccessTokenExpiresAtKey, RefreshTokenExpiresAtKey};
      reply := SignOutReply(true);
    }

    /** GET_TAB_CONTENT: leaves storage alone. */
    method GetTabContentAction(activeTab: Option<Tab>, script: ScriptOutcome) returns (tab: TabContent)
      ensures tab == TabContentFor(activeTab, script)
    {
      if activeTab.None? || activeTab.value.id.None? || activeTab.value.id.value == 0 {
        return TabContent(None, None, None);
      }
      var active := activeTab.value;
      match script {
        case ScriptFailed =>
          tab := TabContent(None, active.url, active.title);
        case NoResult =>
          tab := TabContent(None, active.url, active.title);
        case Ran(page) =>
          var data := Extraction.ExtractContent(page);
          tab := TabContent(
            if data.content != "" then Some(data.content) else None,
            if data.url != "" then Some(data.url) else active.url,
            if data.title != "" then Some(data.title) else active.title);
      }
    }
  }
}

/** Properties of the broker that relate several actions. */
module BackgroundProofs {
  import opened Wrappers
  import opened EchoTypes
  import Extraction
  import ExtractionProofs
  import Text
  import opened TabContentLib
  import opened Background

  /** Signing out, whatever was stored, leaves CHECK_AUTH answering
      not-authenticated with no user and no token. */
  lemma SignOutThenCheckAuth(store: Store, now: int)
    ensures AuthStatus(Cleared(store), now) == AuthStatusReply(false, None, None)
  {
  }

  /** After an accepted sign-in whose access token is non-empty and not yet
      expired, CHECK_AUTH reports the signed-in user and that token. */
  lemma SignInThenCheckAuth(store: Store, r: AuthResponse, now: int)
    requires SignInAccepted(r)
    requires r.tokenData.value.accessToken != ""
    requires r.tokenData.value.accessTokenExpiresAt != 0 && now < r.tokenData.value.accessTokenExpiresAt
    ensures AuthStatus(AfterAuthenticate(store, r), now)
      == AuthStatusReply(true, r.echoUser, Some(r.tokenData.value.accessToken))
  {
    var s := AfterAuthenticate(store, r);
    assert s[UserKey] == UserValue(r.echoUser.value);
  }

  /** A successful refresh is served from storage by the next GET_TOKEN made
      before the new expiry, without another refresh. */
  lemma RefreshThenServedFromStore(store: Store, now: int, refresh: RefreshResponse, later: int, next: RefreshResponse)
    requires !AccessTokenValid(store, now)
    requires refresh.success && refresh.tokenData.Some?
    requires refresh.tokenData.value.accessToken != "" && refresh.tokenData.value.accessTokenExpiresAt != 0
    requires later < refresh.tokenData.value.accessTokenExpiresAt
    ensures var first := ServeToken(store, now, refresh);
      var second := ServeToken(first.store, later, next);
      && !second.refreshed && second.store == first.store && second.token == first.token
  {
  }

  /** GET_USER reports the user an accepted sign-in stored, and `null` once
      signed out. */
  lemma GetUserAfterSignInAndOut(store: Store, r: AuthResponse, env: Env)
    requires SignInAccepted(r)
    ensures Handle(AfterAuthenticate(store, r), GetUser, env).1 == Some(UserReply(r.echoUser))
    ensures Handle(Cleared(store), GetUser, env).1 == Some(UserReply(None))
  {
  }

  /** GET_TOKEN and REFRESH_TOKEN answer and store alike. */
  lemma TokenActionsAgree(store: Store, env: Env)
    ensures Handle(store, GetToken, env) == Handle(store, RefreshToken, env)
  {
  }

  /** Storage stays well typed whatever message arrives. */
  lemma HandleKeepsWellTyped(store: Store, request: Request, env: Env)
    requires WellTyped(store)
    ensures WellTyped(Handle(store, request, env).0)
  {
  }

  /** Only AUTHENTICATE, GET_TOKEN, REFRESH_TOKEN and SIGN_OUT change storage,
      and an unknown action is not answered. */
  lemma ReadOnlyActions(store: Store, request: Request, env: Env)
    requires request.GetUser? || request.CheckAuth? || request.GetTabContent? || request.Unknown?
    ensures Handle(store, request, env).0 == store
    ensures Handle(store, request, env).1.None? <==> request.Unknown?
  {
  }

  /** Page text returned by GET_TAB_CONTENT is non-empty, trimmed, free of
      whitespace runs and at most 8003 characters long. */
  lemma TabContentIsClean(activeTab: Option<Tab>, script: ScriptOutcome)
    ensures var t := TabContentFor(activeTab, script);
      t.content.Some? ==>
        && t.content.value != ""
        && |t.content.value| <= Extraction.MaxContentLength + |Extraction.TruncationMarker|
        && Extraction.WellSpaced(t.content.value)
        && !Text.IsSpace(t.content.value[0]) && !Text.IsSpace(t.content.value[|t.content.value| - 1])
  {
    if script.Ran? {
      ExtractionProofs.CleanTextShape(Extraction.CloneText(Extraction.ChosenElement(script.page)));
    }
  }

  /** Without an active tab with a usable id everything is null; when the
      injection fails the content is null and the tab's own URL and title are
      returned. */
  lemma TabContentFallbacks(activeTab: Option<Tab>, script: ScriptOutcome)
    ensures activeTab.None? || activeTab.value.id.None? || activeTab.value.id == Some(0)
      ==> TabContentFor(activeTab, script) == TabContent(None, None, None)
    ensures activeTab.Some? && activeTab.value.id.Some? && activeTab.value.id.value != 0 && script.ScriptFailed?
      ==> TabContentFor(activeTab, script) == TabContent(None, activeTab.value.url, activeTab.value.title)
  {
  }
}
