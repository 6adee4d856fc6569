/** The client object and the transport it drives, as classes whose methods update
    fields in place. Every state-changing method is proved to perform a transition of
    module Session on the observable state `Model()`: the one of the same name, except
    that `PushHeaders` performs `Session.SetHeaders` and both OAuth flows perform
    `Session.OAuthExchange`. Network calls are parameters:
    `login` is the SOAP login call (the answer for the credentials sent), `post` the
    OAuth token endpoint together with body reading and JSON decoding. */
module Soapforce {
  import opened Wrappers
  import opened Headers
  import Urls
  import Session

  /** The SOAP transport, reduced to the two things the client core sets on it. */
  class Soap {
    var serverUrl: string
    var headers: seq<Header>

    constructor (url: string)
      ensures serverUrl == url && headers == []
    {
      serverUrl := url;
      headers := [];
    }

    method SetServerUrl(url: string)
      modifies this
      ensures serverUrl == url && headers == old(headers)
    {
      serverUrl := url;
    }

    /** Replace the whole header list. */
    method SetHeader(hs: seq<Header>)
      modifies this
      ensures headers == hs && serverUrl == old(serverUrl)
    {
      headers := hs;
    }

    /** Append one header to the current list. */
    method AddHeader(h: Header)
      modifies this
      ensures headers == old(headers) + [h] && serverUrl == old(serverUrl)
    {
      headers := headers + [h];
    }

    method ClearHeader()
      modifies this
      ensures headers == [] && serverUrl == old(serverUrl)
    {
      headers := [];
    }
  }

  class Client {
    var userInfo: Option<Session.UserInfo>
    var apiVersion: string
    var batchSize: Int32
    var debugCategories: Option<seq<LogInfo>>
    var sessionId: string
    var loginUrl: string
    var clientId: string
    var clientSecret: string
    var serverUrl: string
    const soapClient: Soap
    var credentials: Option<Session.Credentials>

    /** The observable state: the client's fields and the transport's URL and headers. */
    ghost function Model(): Session.State
      reads this, soapClient
    {
      Session.State(userInfo, apiVersion, batchSize, debugCategories, sessionId, loginUrl,
                    clientId, clientSecret, serverUrl, credentials,
                    soapClient.serverUrl, soapClient.headers)
    }

    /** `NewClient`: defaults for version and host; the URL is not pushed. */
    constructor ()
      ensures fresh(soapClient)
      ensures Model() == Session.Initial()
    {
      userInfo := None;
      apiVersion := Session.DefaultApiVersion;
      batchSize := 0;
      debugCategories := None;
      sessionId := "";
      loginUrl := Session.DefaultLoginUrl;
      clientId := "";
      clientSecret := "";
      serverUrl := "";
      credentials := None;
      soapClient := new Soap("");
    }

    method SetApiVersion(v: string)
      modifies this, soapClient
      ensures Model() == Session.SetApiVersion(old(Model()), v)
    {
      apiVersion := v;
      PushLoginUrl();
    }

    method SetAccessToken(sid: string)
      modifies this, soapClient
      ensures Model() == Session.SetAccessToken(old(Model()), sid)
    {
      sessionId := sid;
      PushHeaders();
    }

    method SetLoginUrl(url: string)
      modifies this, soapClient
      ensures Model() == Session.SetLoginUrl(old(Model()), url)
    {
      loginUrl := url;
      PushLoginUrl();
    }

    /** `setLoginUrl`: point the transport at the derived login URL. */
    method PushLoginUrl()
      modifies soapClient
      ensures Model() == Session.PushLoginUrl(old(Model()))
    {
      var url := Urls.SoapLoginUrl(loginUrl, apiVersion);
      soapClient.SetServerUrl(url);
    }

    method SetServerUrl(url: string)
      modifies soapClient
      ensures Model() == Session.SetServerUrl(old(Model()), url)
    {
      soapClient.SetServerUrl(url);
    }

    method GetSessionID() returns (sid: string)
      ensures sid == Model().sessionId
    {
      sid := sessionId;
    }

    /** Log in again with the stored credentials (possibly none) and append a session
        header for the new id. */
    method RefreshSessionID(login: Option<Session.Credentials> -> Result<Session.LoginResult, Session.Error>)
      returns (err: Outcome<Session.Error>)
      modifies this, soapClient
      ensures err == login(old(credentials)).ToOutcome()
      ensures Model() == Session.RefreshSessionID(old(Model()), login(old(credentials)))
    {
      var res := login(credentials);
      if res.Err? {
        return Fail(res.error);
      }
      sessionId := res.value.sessionId;
      serverUrl := res.value.serverUrl;
      soapClient.SetServerUrl(res.value.serverUrl);
      userInfo := res.value.userInfo;
      soapClient.AddHeader(SessionHeader(res.value.sessionId));
      err := Pass;
    }

    /** Password login; the credentials are stored before the call is made. */
    method Login(u: string, p: string, login: Option<Session.Credentials> -> Result<Session.LoginResult, Session.Error>)
      returns (r: Result<Session.LoginResult, Session.Error>)
      modifies this, soapClient
      ensures r == login(Some(Session.Credentials(u, p)))
      ensures Model() == Session.Login(old(Model()), u, p, r)
    {
      credentials := Some(Session.Credentials(u, p));
      var res := login(credentials);
      if res.Err? {
        return res;
      }
      soapClient.SetServerUrl(res.value.serverUrl);
      userInfo := res.value.userInfo;
      SetAccessToken(res.value.sessionId);
      r := res;
    }

    method SetClientId(id: string)
      modifies this
      ensures Model() == Session.SetClientId(old(Model()), id)
    {
      clientId := id;
    }

    method SetClientSecret(secret: string)
      modifies this
      ensures Model() == Session.SetClientSecret(old(Model()), secret)
    {
      clientSecret := secret;
    }

    /** The shared tail of both OAuth flows, run on the decoded token response. */
    method ApplyTokenResponse(m: Session.TokenResponse)
      modifies this, soapClient
      ensures Model() == Session.ApplyTokenResponse(old(Model()), m)
    {
      soapClient.SetServerUrl(Urls.InstanceSoapUrl(Session.Lookup(m, "instance_url"), apiVersion));
      SetAccessToken(Session.Lookup(m, "access_token"));
    }

    /** OAuth password grant against the token endpoint of the login host. */
    method LoginWithOAuth(username: string, password: string,
                          post: Session.FormPost -> Result<Session.TokenResponse, Session.Error>)
      returns (err: Outcome<Session.Error>)
      modifies this, soapClient
      ensures var res := post(Session.PasswordGrantRequest(old(loginUrl), old(clientId), old(clientSecret), username, password));
        err == res.ToOutcome() && Model() == Session.OAuthExchange(old(Model()), res)
    {
      var request := Session.PasswordGrantRequest(loginUrl, clientId, clientSecret, username, password);
      var res := post(request);
      if res.Err? {
        return Fail(res.error);
      }
      ApplyTokenResponse(res.value);
      err := Pass;
    }

    /** OAuth refresh-token grant against the token endpoint of the login host. */
    method Refresh(refreshToken: string,
                   post: Session.FormPost -> Result<Session.TokenResponse, Session.Error>)
      returns (err: Outcome<Session.Error>)
      modifies this, soapClient
      ensures var res := post(Session.RefreshGrantRequest(old(loginUrl), old(clientId), old(clientSecret), refreshToken));
        err == res.ToOutcome() && Model() == Session.OAuthExchange(old(Model()), res)
    {
      var request := Session.RefreshGrantRequest(loginUrl, clientId, clientSecret, refreshToken);
      var res := post(request);
      if res.Err? {
        return Fail(res.error);
      }
      ApplyTokenResponse(res.value);
      err := Pass;
    }

    /** Logout; `outcome` is what the transport's logout call returned. */
    method Logout(outcome: Outcome<Session.Error>) returns (err: Outcome<Session.Error>)
      modifies soapClient
      ensures err == outcome
      ensures Model() == Session.Logout(old(Model()), outcome)
    {
      if outcome.Fail? {
        return outcome;
      }
      PushLoginUrl();
      soapClient.ClearHeader();
      err := Pass;
    }

    method SetBatchSize(size: Int64)
      modifies this, soapClient
      ensures Model() == Session.SetBatchSize(old(Model()), size)
    {
      batchSize := ToInt32(size);
      PushHeaders();
    }

    method SetDebuggingHeader(categories: Option<seq<LogInfo>>)
      modifies this, soapClient
      ensures Model() == Session.SetDebuggingHeader(old(Model()), categories)
    {
      debugCategories := categories;
      PushHeaders();
    }

    /** `setHeaders`: build the list by conditional appends and hand it to the transport. */
    method PushHeaders()
      modifies soapClient
      ensures Model() == Session.SetHeaders(old(Model()))
    {
      var headers: seq<Header> := [];
      if debugCategories.Some? {
        headers := headers + [DebuggingHeader(debugCategories.value)];
      }
      if batchSize > 0 {
        headers := headers + [QueryOptions(batchSize)];
      }
      if sessionId != "" {
        headers := headers + [SessionHeader(sessionId)];
      }
      soapClient.SetHeader(headers);
    }
  }
}
