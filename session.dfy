/** The session manager as a state machine over values: the client's observable state
    (its own fields plus the transport's URL and header list) and one transition per
    operation of the client. The classes in client.dfy are proved to follow these
    transitions; the lemmas here state what the transitions promise. */
module Session {
  import opened Wrappers
  import opened Headers
  import Urls

  const DefaultApiVersion: string := "44.0"
  const DefaultLoginUrl: string := "login.salesforce.com"

  /** The user-info snapshot of a login; the core stores it and never looks inside. */
  datatype UserInfo = UserInfo(attributes: map<string, string>)

  /** The username/password pair kept for a later session refresh. */
  datatype Credentials = Credentials(username: string, password: string)

  /** What a successful SOAP login reports. */
  datatype LoginResult = LoginResult(serverUrl: string, sessionId: string, userInfo: Option<UserInfo>)

  /** A transport, HTTP or JSON error, passed on unchanged. */
  datatype Error = Error(message: string)

  /** The decoded JSON object of an OAuth token response. */
  type TokenResponse = map<string, string>

  /** A form-encoded POST: target URL and form fields. */
  datatype FormPost = FormPost(url: string, form: map<string, string>)

  /** Everything the core can observe: the client's fields, then the transport's
      endpoint URL and header list. */
  datatype State = State(
    userInfo: Option<UserInfo>,
    apiVersion: string,
    batchSize: Int32,
    debugCategories: Option<seq<LogInfo>>,
    sessionId: string,
    loginUrl: string,
    clientId: string,
    clientSecret: string,
    serverUrl: string,
    credentials: Option<Credentials>,
    transportUrl: string,
    headers: seq<Header>)

  /** The transport's headers are the composition of the client's current fields. */
  predicate Synced(s: State)
  {
    s.headers == Compose(s.debugCategories, s.batchSize, s.sessionId)
  }

  /** `s` and `t` agree on everything except the three fields that feed the header
      composer and the header list itself. */
  predicate AgreeBeyondHeaders(s: State, t: State)
  {
    s.(debugCategories := t.debugCategories, batchSize := t.batchSize,
       sessionId := t.sessionId, headers := t.headers) == t
  }

  /** A map read in Go: a missing key yields the empty string. */
  function Lookup(m: TokenResponse, key: string): string
  {
    if key in m then m[key] else ""
  }

  // ---------------------------------------------------------------------------
  // Transitions

  /** A fresh client: default version and login host, every other field zero, and a
      transport created with an empty URL and no headers. */
  function Initial(): State
  {
    State(None, DefaultApiVersion, 0, None, "", DefaultLoginUrl, "", "", "", None, "", [])
  }

  /** Rebuild the transport's header list from the current fields. */
  function SetHeaders(s: State): State
  {
    s.(headers := Compose(s.debugCategories, s.batchSize, s.sessionId))
  }

  /** Point the transport at the login URL derived from host and version. */
  function PushLoginUrl(s: State): State
  {
    s.(transportUrl := Urls.SoapLoginUrl(s.loginUrl, s.apiVersion))
  }

  function SetApiVersion(s: State, version: string): State
  {
    PushLoginUrl(s.(apiVersion := version))
  }

  function SetLoginUrl(s: State, host: string): State
  {
    PushLoginUrl(s.(loginUrl := host))
  }

  /** Set only the transport's URL; the client's `ServerUrl` field is left alone. */
  function SetServerUrl(s: State, url: string): State
  {
    s.(transportUrl := url)
  }

  function SetAccessToken(s: State, sessionId: string): State
  {
    SetHeaders(s.(sessionId := sessionId))
  }

  function SetBatchSize(s: State, size: Int64): State
  {
    SetHeaders(s.(batchSize := ToInt32(size)))
  }

  function SetDebuggingHeader(s: State, categories: Option<seq<LogInfo>>): State
  {
    SetHeaders(s.(debugCategories := categories))
  }

  function SetClientId(s: State, id: string): State
  {
    s.(clientId := id)
  }

  function SetClientSecret(s: State, secret: string): State
  {
    s.(clientSecret := secret)
  }

  /** Password login: the credentials are stored first, whatever the outcome; on
      success the transport URL, the user info and (through the access-token setter)
      the session id and headers follow the result. */
  function Login(s: State, username: string, password: string, res: Result<LoginResult, Error>): State
  {
    var stored := s.(credentials := Some(Credentials(username, password)));
    match res
    case Err(_) => stored
    case Ok(r) => SetAccessToken(stored.(transportUrl := r.serverUrl, userInfo := r.userInfo), r.sessionId)
  }

  /** Re-login with the stored credentials: on success the session id, the `ServerUrl`
      field, the transport URL and the user info follow the result, and one session
      header is appended to whatever headers the transport already has. */
  function RefreshSessionID(s: State, res: Result<LoginResult, Error>): State
  {
    match res
    case Err(_) => s
    case Ok(r) =>
      s.(sessionId := r.sessionId, serverUrl := r.serverUrl, transportUrl := r.serverUrl,
         userInfo := r.userInfo, headers := s.headers + [SessionHeader(r.sessionId)])
  }

  /** The POST of the OAuth password grant. */
  function PasswordGrantRequest(loginUrl: string, clientId: string, clientSecret: string,
                                username: string, password: string): FormPost
  {
    FormPost(Urls.TokenEndpoint(loginUrl),
      map["grant_type" := "password", "client_id" := clientId, "client_secret" := clientSecret,
          "username" := username, "password" := password])
  }

  /** The POST of the OAuth refresh-token grant. */
  function RefreshGrantRequest(loginUrl: string, clientId: string, clientSecret: string,
                               refreshToken: string): FormPost
  {
    FormPost(Urls.TokenEndpoint(loginUrl),
      map["grant_type" := "refresh_token", "client_id" := clientId, "client_secret" := clientSecret,
          "refresh_token" := refreshToken])
  }

  /** Apply a decoded token response: the transport goes to the instance's SOAP URL and
      the access token becomes the session id (missing keys read as ""). */
  function ApplyTokenResponse(s: State, m: TokenResponse): State
  {
    SetAccessToken(s.(transportUrl := Urls.InstanceSoapUrl(Lookup(m, "instance_url"), s.apiVersion)),
                   Lookup(m, "access_token"))
  }

  /** The common tail of `LoginWithOAuth` and `Refresh`: any error up to and including
      JSON decoding leaves the state alone. */
  function OAuthExchange(s: State, res: Result<TokenResponse, Error>): State
  {
    match res
    case Err(_) => s
    case Ok(m) => ApplyTokenResponse(s, m)
  }

  /** Logout: on an error nothing changes; on success the transport goes back to the
      derived login URL and loses all headers, while the session id field is kept. */
  function Logout(s: State, outcome: Outcome<Error>): State
  {
    match outcome
    case Fail(_) => s
    case Pass => PushLoginUrl(s).(headers := [])
  }

  // ---------------------------------------------------------------------------
  // Creation and the derived URL

  /** A new client has no session, no optional headers and an empty transport URL:
      the default URL is not pushed until version or host is set. */
  lemma InitialState()
    ensures Synced(Initial()) && Initial().headers == []
    ensures Initial().transportUrl == "" && Initial().sessionId == ""
    ensures Initial().credentials == None && Initial().debugCategories == None
  {
  }

  /** With the defaults the derived login URL is the production login endpoint. */
  lemma DefaultDerivedUrl()
    ensures PushLoginUrl(Initial()).transportUrl == "https://login.salesforce.com/services/Soap/u/44.0"
  {
  }

  /** Setting the version or the host recomputes the transport URL at once from the
      new pair, and touches nothing else. */
  lemma UrlSettersDeriveUrl(s: State, version: string, host: string)
    ensures SetApiVersion(s, version).transportUrl == Urls.SoapLoginUrl(s.loginUrl, version)
    ensures SetApiVersion(s, version) == s.(apiVersion := version, transportUrl := SetApiVersion(s, version).transportUrl)
    ensures SetLoginUrl(s, host).transportUrl == Urls.SoapLoginUrl(host, s.apiVersion)
    ensures SetLoginUrl(s, host) == s.(loginUrl := host, transportUrl := SetLoginUrl(s, host).transportUrl)
  {
  }

  // ---------------------------------------------------------------------------
  // Header setters

  /** Each setter changes its own field and leaves the headers equal to the
      composition of the current fields; nothing else moves. */
  lemma SettersSync(s: State, sid: string, size: Int64, categories: Option<seq<LogInfo>>)
    ensures Synced(SetAccessToken(s, sid)) && SetAccessToken(s, sid).sessionId == sid
    ensures Synced(SetBatchSize(s, size)) && SetBatchSize(s, size).batchSize == ToInt32(size)
    ensures Synced(SetDebuggingHeader(s, categories)) && SetDebuggingHeader(s, categories).debugCategories == categories
    ensures SetAccessToken(s, sid) == s.(sessionId := sid, headers := SetAccessToken(s, sid).headers)
    ensures SetBatchSize(s, size) == s.(batchSize := ToInt32(size), headers := SetBatchSize(s, size).headers)
    ensures SetDebuggingHeader(s, categories) == s.(debugCategories := categories, headers := SetDebuggingHeader(s, categories).headers)
  {
  }

  /** A call of one of the three header setters. */
  datatype Setter =
    | SetToken(sessionId: string)
    | SetBatch(size: Int64)
    | SetDebug(categories: Option<seq<LogInfo>>)

  function ApplySetter(s: State, op: Setter): State
  {
    match op
    case SetToken(t) => SetAccessToken(s, t)
    case SetBatch(n) => SetBatchSize(s, n)
    case SetDebug(c) => SetDebuggingHeader(s, c)
  }

  /** The setters called one after another, first to last. */
  function RunSetters(s: State, ops: seq<Setter>): State
    decreases |ops|
  {
    if ops == [] then s else RunSetters(ApplySetter(s, ops[0]), ops[1..])
  }

  /** After any non-empty run of setters the headers are the composition of the final
      fields. */
  lemma {:induction false} RunSettersSynced(s: State, ops: seq<Setter>)
    requires ops != []
    ensures Synced(RunSetters(s, ops))
    decreases |ops|
  {
    if |ops| > 1 {
      RunSettersSynced(ApplySetter(s, ops[0]), ops[1..]);
    }
  }

  /** A run of setters changes nothing outside the header fields. */
  lemma {:induction false} RunSettersAgree(s: State, ops: seq<Setter>)
    ensures AgreeBeyondHeaders(RunSetters(s, ops), s)
    decreases |ops|
  {
    if ops != [] {
      RunSettersAgree(ApplySetter(s, ops[0]), ops[1..]);
    }
  }

  /** Order independence: two non-empty runs of setters from the same state that end
      with the same three field values end in the same state, headers included. */
  lemma SettersOrderIndependent(s: State, ops1: seq<Setter>, ops2: seq<Setter>)
    requires ops1 != [] && ops2 != []
    requires RunSetters(s, ops1).sessionId == RunSetters(s, ops2).sessionId
    requires RunSetters(s, ops1).batchSize == RunSetters(s, ops2).batchSize
    requires RunSetters(s, ops1).debugCategories == RunSetters(s, ops2).debugCategories
    ensures RunSetters(s, ops1) == RunSetters(s, ops2)
  {
    RunSettersSynced(s, ops1);
    RunSettersSynced(s, ops2);
    RunSettersAgree(s, ops1);
    RunSettersAgree(s, ops2);
  }

  /** Setters of different fields commute. */
  lemma SettersCommute(s: State, sid: string, size: Int64, categories: Option<seq<LogInfo>>)
    ensures SetBatchSize(SetAccessToken(s, sid), size) == SetAccessToken(SetBatchSize(s, size), sid)
    ensures SetDebuggingHeader(SetAccessToken(s, sid), categories) == SetAccessToken(SetDebuggingHeader(s, categories), sid)
    ensures SetDebuggingHeader(SetBatchSize(s, size), categories) == SetBatchSize(SetDebuggingHeader(s, categories), size)
  {
  }

  /** The operations that only touch configuration or the transport URL keep the
      headers exactly as they were. */
  lemma ConfigSettersKeepHeaders(s: State, x: string)
    ensures SetApiVersion(s, x).headers == s.headers && SetLoginUrl(s, x).headers == s.headers
    ensures SetServerUrl(s, x).headers == s.headers
    ensures SetClientId(s, x).headers == s.headers && SetClientSecret(s, x).headers == s.headers
    ensures Synced(s) ==> Synced(SetApiVersion(s, x)) && Synced(SetLoginUrl(s, x)) && Synced(SetServerUrl(s, x))
    ensures Synced(s) ==> Synced(SetClientId(s, x)) && Synced(SetClientSecret(s, x))
  {
  }

  // ---------------------------------------------------------------------------
  // Password login

  /** A failed login still overwrites the stored credentials, and changes nothing else. */
  lemma LoginFailure(s: State, username: string, password: string, e: Error)
    ensures Login(s, username, password, Err(e)) == s.(credentials := Some(Credentials(username, password)))
    ensures Login(s, username, password, Err(e)).sessionId == s.sessionId
    ensures Login(s, username, password, Err(e)).transportUrl == s.transportUrl
    ensures Login(s, username, password, Err(e)).headers == s.headers
  {
  }

  /** A successful login moves the transport to the reported server URL, adopts the
      session id and user info, recomposes the headers so that the last one is the
      session header for that id (when non-empty), and leaves the `ServerUrl` field as
      it was. */
  lemma LoginSuccess(s: State, username: string, password: string, r: LoginResult)
    ensures var t := Login(s, username, password, Ok(r));
      && t.transportUrl == r.serverUrl
      && t.userInfo == r.userInfo
      && t.sessionId == r.sessionId
      && t.serverUrl == s.serverUrl
      && t.credentials == Some(Credentials(username, password))
      && Synced(t)
      && (r.sessionId != "" ==> |t.headers| > 0 && t.headers[|t.headers| - 1] == SessionHeader(t.sessionId))
      && (r.sessionId == "" ==> !HasSession(t.headers))
      && t == s.(credentials := Some(Credentials(username, password)), transportUrl := r.serverUrl,
                 userInfo := r.userInfo, sessionId := r.sessionId,
                 headers := Compose(s.debugCategories, s.batchSize, r.sessionId))
  {
    if r.sessionId != "" {
      ComposeSessionLast(s.debugCategories, s.batchSize, r.sessionId);
    }
    ComposePresence(s.debugCategories, s.batchSize, r.sessionId);
  }

  /** Login keeps the headers consistent with the fields, whatever the transport says. */
  lemma LoginPreservesSync(s: State, username: string, password: string, res: Result<LoginResult, Error>)
    requires Synced(s)
    ensures Synced(Login(s, username, password, res))
  {
  }

  // ---------------------------------------------------------------------------
  // Session refresh

  lemma RefreshSessionIDFailure(s: State, e: Error)
    ensures RefreshSessionID(s, Err(e)) == s
  {
  }

  /** A successful refresh adopts id, server URL and user info, and appends exactly one
      session header, keeping the earlier headers as they were. */
  lemma RefreshSessionIDSuccess(s: State, r: LoginResult)
    ensures var t := RefreshSessionID(s, Ok(r));
      && t.sessionId == r.sessionId && t.serverUrl == r.serverUrl
      && t.transportUrl == r.serverUrl && t.userInfo == r.userInfo
      && |t.headers| == |s.headers| + 1
      && t.headers[..|s.headers|] == s.headers
      && t.headers[|s.headers|] == SessionHeader(r.sessionId)
      && t == s.(sessionId := r.sessionId, serverUrl := r.serverUrl, transportUrl := r.serverUrl,
                 userInfo := r.userInfo, headers := t.headers)
  {
  }

  /** Because it appends rather than recomposes, a refresh after a login leaves two
      session headers on the transport, and the headers no longer match the fields. */
  lemma RefreshAfterLoginDuplicatesSession(s: State, r: LoginResult)
    requires Synced(s) && s.sessionId != ""
    ensures var t := RefreshSessionID(s, Ok(r));
      && |t.headers| >= 2
      && t.headers[|t.headers| - 2] == SessionHeader(s.sessionId)
      && t.headers[|t.headers| - 1] == SessionHeader(r.sessionId)
      && !Synced(t)
  {
    var t := RefreshSessionID(s, Ok(r));
    ComposeSessionLast(s.debugCategories, s.batchSize, s.sessionId);
    var n := |t.headers|;
    assert Rank(t.headers[n - 2]) == Rank(t.headers[n - 1]);
    assert !Ordered(t.headers);
    ComposeOrdered(t.debugCategories, t.batchSize, t.sessionId);
  }

  // ---------------------------------------------------------------------------
  // OAuth

  /** Both grants go to the token endpoint of the login host with the same client id
      and secret, and differ in their grant type. */
  lemma GrantRequests(loginUrl: string, clientId: string, clientSecret: string,
                      username: string, password: string, refreshToken: string)
    ensures var p := PasswordGrantRequest(loginUrl, clientId, clientSecret, username, password);
            var q := RefreshGrantRequest(loginUrl, clientId, clientSecret, refreshToken);
      && p.url == q.url == Urls.TokenEndpoint(loginUrl)
      && p.form["client_id"] == q.form["client_id"] == clientId
      && p.form["client_secret"] == q.form["client_secret"] == clientSecret
      && p.form["grant_type"] == "password" && q.form["grant_type"] == "refresh_token"
      && p.form["username"] == username && p.form["password"] == password
      && q.form["refresh_token"] == refreshToken
  {
  }

  lemma OAuthFailure(s: State, e: Error)
    ensures OAuthExchange(s, Err(e)) == s
  {
  }

  /** A decoded token response sets the transport to the instance's SOAP URL and the
      session id to the access token, recomposes the headers from the unchanged debug
      and batch fields, and changes nothing else (in particular not the `ServerUrl`
      field nor the stored credentials). */
  lemma OAuthSuccess(s: State, m: TokenResponse)
    ensures var t := OAuthExchange(s, Ok(m));
      && t.transportUrl == Urls.InstanceSoapUrl(Lookup(m, "instance_url"), s.apiVersion)
      && t.sessionId == Lookup(m, "access_token")
      && Synced(t)
      && t == s.(transportUrl := t.transportUrl, sessionId := t.sessionId,
                 headers := Compose(s.debugCategories, s.batchSize, t.sessionId))
  {
  }

  /** A response without the two keys is not rejected: the URL is the bare SOAP path
      plus version and the session id becomes empty, so no session header is sent. */
  lemma OAuthMissingKeys(s: State, m: TokenResponse)
    requires "instance_url" !in m && "access_token" !in m
    ensures OAuthExchange(s, Ok(m)).transportUrl == Urls.SoapPath + s.apiVersion
    ensures OAuthExchange(s, Ok(m)).sessionId == ""
    ensures !HasSession(OAuthExchange(s, Ok(m)).headers)
  {
    ComposePresence(s.debugCategories, s.batchSize, "");
  }

  /** Two clients on the same API version given the same token response end at the
      same URL and session id, whatever their sessions were before; with the same debug
      and batch settings their headers agree too. */
  lemma OAuthConverges(s1: State, s2: State, m: TokenResponse)
    requires s1.apiVersion == s2.apiVersion
    ensures OAuthExchange(s1, Ok(m)).transportUrl == OAuthExchange(s2, Ok(m)).transportUrl
    ensures OAuthExchange(s1, Ok(m)).sessionId == OAuthExchange(s2, Ok(m)).sessionId
    ensures s1.debugCategories == s2.debugCategories && s1.batchSize == s2.batchSize ==>
      OAuthExchange(s1, Ok(m)).headers == OAuthExchange(s2, Ok(m)).headers
  {
  }

  /** Repeating an exchange with the same response changes nothing further. */
  lemma OAuthIdempotent(s: State, res: Result<TokenResponse, Error>)
    ensures OAuthExchange(OAuthExchange(s, res), res) == OAuthExchange(s, res)
  {
  }

  /** The sample response `{"access_token":"tok123","instance_url":"https://na1.example.com"}`
      on version 44.0. */
  lemma OAuthExample(s: State)
    requires s.apiVersion == "44.0"
    ensures var t := OAuthExchange(s, Ok(map["access_token" := "tok123", "instance_url" := "https://na1.example.com"]));
      t.transportUrl == "https://na1.example.com/services/Soap/u/44.0" && t.sessionId == "tok123"
  {
  }

  // ---------------------------------------------------------------------------
  // Logout

  lemma LogoutFailure(s: State, e: Error)
    ensures Logout(s, Fail(e)) == s
  {
  }

  /** A successful logout resets the transport URL to the derived login URL and clears
      every header, but keeps the session id field. */
  lemma LogoutSuccess(s: State)
    ensures var t := Logout(s, Pass);
      && t.transportUrl == Urls.SoapLoginUrl(s.loginUrl, s.apiVersion)
      && t.headers == []
      && t.sessionId == s.sessionId
      && t == s.(transportUrl := t.transportUrl, headers := [])
  {
  }

  /** Since the session id survives logout, the next batch-size or debug setter sends
      the old session header again. */
  lemma LogoutThenSetterResendsSession(s: State, size: Int64, categories: Option<seq<LogInfo>>)
    requires s.sessionId != ""
    ensures var t := SetBatchSize(Logout(s, Pass), size);
      |t.headers| > 0 && t.headers[|t.headers| - 1] == SessionHeader(s.sessionId)
    ensures var t := SetDebuggingHeader(Logout(s, Pass), categories);
      |t.headers| > 0 && t.headers[|t.headers| - 1] == SessionHeader(s.sessionId)
  {
    ComposeSessionLast(s.debugCategories, ToInt32(size), s.sessionId);
    ComposeSessionLast(categories, s.batchSize, s.sessionId);
  }
}
