/** `AuthorizeService`: the signed-in user and what is derived from it (the
    bearer header, the subject identifier), the table of authentication
    paths, and the three shapes of an authentication result. The OIDC flows
    themselves live in `oidc-client` and are not part of this model. */
module Authorize {
  import opened Common
  import opened Strings

  /** The names of the query parameters the login and logout pages read. */
  const ReturnUrlParameter := "returnUrl"
  const MessageParameter := "message"

  /** The parts of an `oidc-client` `User` the service reads. */
  datatype User = User(idToken: string, accessToken: Option<string>, expiresIn: Option<int>)

  /** The claims of an access token; only `sub` is used. */
  datatype AccessToken = AccessToken(sub: Option<string>)

  /** The state carried through a sign-in or sign-out. */
  datatype SigninState = SigninState(returnUrl: string)

  /** `ReturnStatus`: built by `error`, `success` and `redirect`. `success`
      may carry an undefined state (`user && user.state`). */
  datatype ReturnStatus = Fail(message: string) | Success(state: Option<SigninState>) | Redirect

  /** `AuthenticationResultStatus`: the `status` tag of a result. */
  function StatusName(result: ReturnStatus): (name: string)
    ensures name == "fail" || name == "success" || name == "redirect"
  {
    match result
    case Fail(_) => "fail"
    case Success(_) => "success"
    case Redirect => "redirect"
  }

  /** The tag alone tells the three shapes apart. */
  lemma StatusNameIdentifiesShape(a: ReturnStatus, b: ReturnStatus)
    ensures StatusName(a) == StatusName(b) <==>
      (a.Fail? && b.Fail?) || (a.Success? && b.Success?) || (a.Redirect? && b.Redirect?)
  {
    assert "fail" != "success" && "fail" != "redirect" && "success" != "redirect";
  }

  /** The login and logout actions of the authentication routes. */
  datatype AuthenticationAction =
    | Login | LoginCallback | LoginFailed | Profile | Register
    | LogOut | LogOutCallback | FrontChannelLogout

  const Prefix := "/authentication"

  /** `LoginActions` and `LogoutActions`: the route segment of each action. */
  function ActionName(action: AuthenticationAction): string
  {
    match action
    case Login => "login"
    case LoginCallback => "login-callback"
    case LoginFailed => "login-failed"
    case Profile => "profile"
    case Register => "register"
    case LogOut => "logout"
    case LogOutCallback => "logout-callback"
    case FrontChannelLogout => "front-channel-logged-out"
  }

  /** The action whose route segment is `name`, if any. */
  function ActionNamed(name: string): (r: Option<AuthenticationAction>)
    ensures r.Some? ==> ActionName(r.value) == name
  {
    if name == "login" then Some(Login)
    else if name == "login-callback" then Some(LoginCallback)
    else if name == "login-failed" then Some(LoginFailed)
    else if name == "profile" then Some(Profile)
    else if name == "register" then Some(Register)
    else if name == "logout" then Some(LogOut)
    else if name == "logout-callback" then Some(LogOutCallback)
    else if name == "front-channel-logged-out" then Some(FrontChannelLogout)
    else None
  }

  /** The `ApplicationPaths` table. */
  datatype ApplicationPaths = ApplicationPaths(
    defaultLoginRedirectPath: string,
    apiAuthorizationClientConfigurationUrl: string,
    apiAuthorizationPrefix: string,
    login: string,
    loginFailed: string,
    loginCallback: string,
    register: string,
    profile: string,
    logOut: string,
    loggedOut: string,
    frontChannelLogout: string,
    logOutCallback: string,
    identityRegisterPath: string,
    identityManagePath: string)

  /** The table the constructor builds for `applicationName`. */
  function Paths(applicationName: string): ApplicationPaths
  {
    ApplicationPaths(
      "/",
      "/_configuration/" + applicationName,
      Prefix,
      Prefix + "/" + ActionName(Login),
      Prefix + "/" + ActionName(LoginFailed),
      Prefix + "/" + ActionName(LoginCallback),
      Prefix + "/" + ActionName(Register),
      Prefix + "/" + ActionName(Profile),
      Prefix + "/" + ActionName(LogOut),
      "/account/logout",
      Prefix + "/" + ActionName(FrontChannelLogout),
      Prefix + "/" + ActionName(LogOutCallback),
      "/Identity/Account/Register",
      "/Identity/Account/Manage")
  }

  /** The table's entry for an authentication action. */
  function PathOf(paths: ApplicationPaths, action: AuthenticationAction): string
  {
    match action
    case Login => paths.login
    case LoginCallback => paths.loginCallback
    case LoginFailed => paths.loginFailed
    case Profile => paths.profile
    case Register => paths.register
    case LogOut => paths.logOut
    case LogOutCallback => paths.logOutCallback
    case FrontChannelLogout => paths.frontChannelLogout
  }

  /** The action a path under the prefix routes to. */
  function ActionOfPath(path: string): Option<AuthenticationAction>
  {
    if StartsWith(path, Prefix + "/") then ActionNamed(path[|Prefix + "/"|..]) else None
  }

  /** Every action's path is the prefix, "/" and its segment, and routes
      back to that action, so no two actions share a path. */
  lemma PathsRouteBack(applicationName: string, action: AuthenticationAction)
    ensures PathOf(Paths(applicationName), action) == Prefix + "/" + ActionName(action)
    ensures ActionOfPath(PathOf(Paths(applicationName), action)) == Some(action)
  {
    var path := PathOf(Paths(applicationName), action);
    assert path[..|Prefix + "/"|] == Prefix + "/";
    assert path[|Prefix + "/"|..] == ActionName(action);
  }

  lemma PathsDistinct(applicationName: string, a: AuthenticationAction, b: AuthenticationAction)
    ensures PathOf(Paths(applicationName), a) == PathOf(Paths(applicationName), b) <==> a == b
  {
    PathsRouteBack(applicationName, a);
    PathsRouteBack(applicationName, b);
  }

  /** The fixed entries: the configuration endpoint is named after the
      application, the default redirect is the root, and the signed-out page
      and the Identity pages lie outside the prefix, so no authentication
      action is routed to them. */
  lemma FixedPaths(applicationName: string)
    ensures Paths(applicationName).apiAuthorizationClientConfigurationUrl == "/_configuration/" + applicationName
    ensures Paths(applicationName).defaultLoginRedirectPath == "/"
    ensures Paths(applicationName).apiAuthorizationPrefix == Prefix
    ensures Paths(applicationName).loggedOut == "/account/logout" && ActionOfPath(Paths(applicationName).loggedOut) == None
    ensures ActionOfPath(Paths(applicationName).identityRegisterPath) == None
    ensures ActionOfPath(Paths(applicationName).identityManagePath) == None
  {
  }

  /** Two applications share a configuration endpoint only when they share
      a name. */
  lemma ConfigurationUrlNamesApplication(a: string, b: string)
    ensures Paths(a).apiAuthorizationClientConfigurationUrl == Paths(b).apiAuthorizationClientConfigurationUrl <==> a == b
  {
    var prefix := "/_configuration/";
    if Paths(a).apiAuthorizationClientConfigurationUrl == Paths(b).apiAuthorizationClientConfigurationUrl {
      assert a == (prefix + a)[|prefix|..];
      assert b == (prefix + b)[|prefix|..];
    }
  }

  class AuthorizeService {
    var user: Option<User>
    var authenticated: bool
    var ready: bool
    const applicationName: string
    const applicationPaths: ApplicationPaths

    /** A new service: nobody signed in yet, not ready. */
    constructor (applicationName: string)
      ensures user == None && !authenticated && !ready
      ensures this.applicationName == applicationName && applicationPaths == Paths(applicationName)
    {
      this.applicationName := applicationName;
      applicationPaths := Paths(applicationName);
      user := None;
      authenticated := false;
      ready := false;
    }

    /** `updateState(user)`: marks the service ready; a user replaces the
        stored one, null or undefined changes nothing else. */
    method UpdateState(newUser: Option<User>)
      modifies this
      ensures ready
      ensures newUser.Some? ==>
        && user == newUser
        && (authenticated <==> newUser.value.expiresIn.Some? && newUser.value.expiresIn.value > 0)
      ensures newUser.None? ==> user == old(user) && authenticated == old(authenticated)
    {
      ready := true;
      // The source tests `(user && this.user !== null) || (user && (this.user
      // === null || this.user.id_token !== user.id_token))`, which holds
      // exactly when the new user is present.
      if newUser.Some? {
        user := newUser;
        authenticated := user.value.expiresIn.Some? && user.value.expiresIn.value > 0;
      }
    }

    /** `serializedAccessToken`: the user's access token, if any. */
    function SerializedAccessToken(): (r: Option<string>)
      reads this
      ensures r.Some? ==> user.Some? && user.value.accessToken == r
    {
      if user.Some? then user.value.accessToken else None
    }

    /** `authorizationHeader`: the bearer header for a non-empty access token,
        and nothing (a falsy value) otherwise. */
    function AuthorizationHeader(): (r: Option<string>)
      reads this
      ensures r.Some? <==> NonEmpty(SerializedAccessToken())
    {
      var token := SerializedAccessToken();
      if token.Some? && token.value != "" then Some("Bearer " + token.value) else None
    }

    /** `identifier`: the `sub` claim of the access token. `decode` stands
        for `JSON.parse(atob(payload))`, `None` where that throws; a token
        without a "." has no payload and decoding it throws too. */
    function Identifier(decode: string -> Option<AccessToken>): (r: Result<Option<string>, string>)
      reads this
      ensures !NonEmpty(SerializedAccessToken()) ==> r == Ok(None)
    {
      var token := SerializedAccessToken();
      if token.None? || token.value == "" then Ok(None)
      else
        var pieces := Split(token.value, '.');
        if |pieces| < 2 then Err("the access token has no payload")
        else
          match decode(pieces[1])
          case None => Err("the access token payload is not valid")
          case Some(claims) => Ok(claims.sub)
    }
  }

  /** The header carries the token: removing "Bearer " gives it back. */
  lemma HeaderCarriesToken(service: AuthorizeService)
    requires service.AuthorizationHeader().Some?
    ensures StartsWith(service.AuthorizationHeader().value, "Bearer ")
    ensures ReplaceFirst(service.AuthorizationHeader().value, "Bearer ", "") == service.SerializedAccessToken().value
  {
    var header := service.AuthorizationHeader().value;
    assert header[..|"Bearer "|] == "Bearer ";
    ReplacePrefix(header, "Bearer ");
    assert header[|"Bearer "|..] == service.SerializedAccessToken().value;
  }

  /** A user is identified only when a bearer header can be sent. */
  lemma IdentifiedHasHeader(service: AuthorizeService, decode: string -> Option<AccessToken>)
    requires service.Identifier(decode) != Ok(None)
    ensures service.AuthorizationHeader().Some?
  {
  }

  /** Signing in stores the user; `updateState(null)`, which the sign-out
      paths call, leaves that user, its header and `authenticated` in place. */
  method NullUpdateKeepsUser() returns (authenticated: bool, header: Option<string>)
    ensures authenticated && header == Some("Bearer abc")
  {
    var service := new AuthorizeService("app");
    service.UpdateState(Some(User("id", Some("abc"), Some(3600))));
    service.UpdateState(None);
    authenticated := service.authenticated;
    header := service.AuthorizationHeader();
    assert "Bearer " + "abc" == "Bearer abc";
  }
}
