/** The logout page: which URL to return to after signing out, and what the
    page does before and after `signOut`. `window.location.origin` and the
    `returnUrl` query parameter are inputs; navigation is recorded. */
module LogoutPage {
  import opened Common
  import opened Strings
  import opened Authorize
  import opened ReturnUrls

  const LoggedOutMessage := "You successfully logged out!"
  const FrontChannelMessage := "Vous êtes déconnecté"

  /** `getReturnUrl(state)` as written: a non-empty `state.returnUrl` is
      returned unchecked; then a query URL is checked and returned without
      its origin; with neither, the signed-out page `loggedOut`. `Err` is the
      thrown error. */
  function GetReturnUrlAsWritten(origin: string, fromQuery: Option<string>, state: Option<SigninState>, loggedOut: string): (r: Result<string, string>)
    ensures state.Some? && state.value.returnUrl != "" ==> r == Ok(state.value.returnUrl)
    ensures !(state.Some? && state.value.returnUrl != "") ==>
      (r.Err? <==> NonEmpty(fromQuery) && !PassesOriginCheck(origin, fromQuery.value))
    ensures r.Ok? && !(state.Some? && state.value.returnUrl != "") && NonEmpty(fromQuery) ==>
      r.value == fromQuery.value[|origin|..] && r.value[0] == '/'
    ensures !(state.Some? && state.value.returnUrl != "") && !NonEmpty(fromQuery) ==> r == Ok(loggedOut)
  {
    StripOrigin(origin, if fromQuery.Some? then fromQuery.value else "");
    if state.Some? && state.value.returnUrl != "" then Ok(state.value.returnUrl)
    else if NonEmpty(fromQuery) then
      if !StartsWith(fromQuery.value, origin + "/") then Err(InvalidReturnUrl)
      else Ok(ReplaceFirst(fromQuery.value, origin, ""))
    else Ok(loggedOut)
  }

  /** The origin test lets a query URL through that sends the user to another
      host once the origin is stripped. */
  lemma LogoutOpenRedirect(loggedOut: string)
    ensures GetReturnUrlAsWritten("https://app.example", Some("https://app.example//evil.example"), None, loggedOut)
      == Ok("//evil.example")
    ensures !OnOrigin("//evil.example")
  {
    OriginCheckLetsOtherHostThrough();
  }

  /** `getReturnUrl(state)` with the origin test the comment intends: the query URL
      must also stay on the origin once stripped. */
  function GetReturnUrl(origin: string, fromQuery: Option<string>, state: Option<SigninState>, loggedOut: string): (r: Result<string, string>)
    ensures !(state.Some? && state.value.returnUrl != "") ==>
      (r.Err? <==> NonEmpty(fromQuery) && !PassesStrictOriginCheck(origin, fromQuery.value))
    ensures r.Ok? && !(state.Some? && state.value.returnUrl != "") ==>
      OnOrigin(r.value) || r.value == loggedOut
  {
    if !(state.Some? && state.value.returnUrl != "") && NonEmpty(fromQuery)
      && !PassesStrictOriginCheck(origin, fromQuery.value)
    then
      Err(InvalidReturnUrl)
    else
      GetReturnUrlAsWritten(origin, fromQuery, state, loggedOut)
  }

  /** The corrected check only refuses more: whatever it accepts, the code
      as written returns too, and it refuses exactly the query URLs that
      would leave the origin. */
  lemma CorrectedRefusesOnlyOffOrigin(origin: string, fromQuery: Option<string>, state: Option<SigninState>, loggedOut: string)
    ensures GetReturnUrl(origin, fromQuery, state, loggedOut).Ok? ==>
      GetReturnUrl(origin, fromQuery, state, loggedOut) == GetReturnUrlAsWritten(origin, fromQuery, state, loggedOut)
    ensures GetReturnUrl(origin, fromQuery, state, loggedOut).Err? && GetReturnUrlAsWritten(origin, fromQuery, state, loggedOut).Ok? ==>
      !OnOrigin(ReplaceFirst(fromQuery.value, origin, ""))
  {
    if NonEmpty(fromQuery) {
      StrictCheckMeansOnOrigin(origin, fromQuery.value);
    }
  }
  /** A tab between the slashes, which `URLSearchParams` decodes from "%09":
      as written the page returns "/\t/evil.example", which the browser reads
      as another host; the intended check refuses it. */
  lemma TabbedQueryRefused(loggedOut: string)
    ensures GetReturnUrlAsWritten("https://app.example", Some("https://app.example/\t/evil.example"), None, loggedOut)
      == Ok("/\t/evil.example")
    ensures !OnOrigin("/\t/evil.example")
    ensures GetReturnUrl("https://app.example", Some("https://app.example/\t/evil.example"), None, loggedOut).Err?
  {
    TabDoesNotSlipThrough();
    TabIsDropped();
    StripOrigin("https://app.example", "https://app.example/\t/evil.example");
  }


  /** The page's local store: the message shown, the readiness flag, the
      states passed to `signOut`, and the URLs assigned to
      `window.location.href`. */
  class LogoutStore {
    var message: Option<string>
    var isReady: bool
    var signOutRequests: seq<SigninState>
    var navigations: seq<string>

    constructor ()
      ensures message == None && !isReady && signOutRequests == [] && navigations == []
    {
      message := None;
      isReady := false;
      signOutRequests := [];
      navigations := [];
    }

    /** `logout(returnUrl)`: `accessToken` is what `getAccessToken()`
        resolved to, and `result` what `signOut` settles with when it is
        called. Without a token nobody is signed in: the page says so and
        `signOut` is not called. */
    method Logout(returnUrl: string, accessToken: Option<string>, result: ReturnStatus)
      modifies this
      ensures !NonEmpty(accessToken) ==>
        && message == Some(LoggedOutMessage)
        && signOutRequests == old(signOutRequests) && navigations == old(navigations) && isReady == old(isReady)
      ensures NonEmpty(accessToken) ==> signOutRequests == old(signOutRequests) + [SigninState(returnUrl)] && isReady == old(isReady)
      ensures NonEmpty(accessToken) && result.Redirect? ==> message == old(message) && navigations == old(navigations)
      ensures NonEmpty(accessToken) && result.Success? ==> message == old(message) && navigations == old(navigations) + [returnUrl]
      ensures NonEmpty(accessToken) && result.Fail? ==> message == Some(result.message) && navigations == old(navigations)
    {
      if accessToken.Some? && accessToken.value != "" {
        signOutRequests := signOutRequests + [SigninState(returnUrl)];
        match result
        case Redirect =>
        case Success(_) =>
          navigations := navigations + [returnUrl];
        case Fail(failure) =>
          message := Some(failure);
      } else {
        message := Some(LoggedOutMessage);
      }
    }

    /** The end of `processLogoutCallback`, once `completeSignOut` has
        settled with `result`. `thrown` is set where the source throws: on a
        redirect, and when `getReturnUrl` refuses the return URL. */
    method ProcessLogoutCallback(origin: string, fromQuery: Option<string>, loggedOut: string, result: ReturnStatus) returns (thrown: bool)
      modifies this
      ensures thrown <==> result.Redirect? || (result.Success? && GetReturnUrlAsWritten(origin, fromQuery, result.state, loggedOut).Err?)
      ensures thrown ==> unchanged(this)
      ensures result.Success? && !thrown ==>
        && navigations == old(navigations) + [GetReturnUrlAsWritten(origin, fromQuery, result.state, loggedOut).value]
        && message == old(message) && signOutRequests == old(signOutRequests) && isReady == old(isReady)
      ensures result.Fail? ==>
        && message == Some(result.message)
        && navigations == old(navigations) && signOutRequests == old(signOutRequests) && isReady == old(isReady)
    {
      thrown := false;
      match result
      case Redirect =>
        thrown := true;
      case Success(state) =>
        var returnUrl := GetReturnUrlAsWritten(origin, fromQuery, state, loggedOut);
        if returnUrl.Err? {
          thrown := true;
        } else {
          navigations := navigations + [returnUrl.value];
        }
      case Fail(failure) =>
        message := Some(failure);
    }

    /** `processLogoutCallback` with the intended origin test: a return URL
        that does not come from the sign-out state stays on the origin or is
        the signed-out page. */
    method ProcessLogoutCallbackOnOrigin(origin: string, fromQuery: Option<string>, loggedOut: string, result: ReturnStatus) returns (thrown: bool)
      modifies this
      ensures thrown <==> result.Redirect? || (result.Success? && GetReturnUrl(origin, fromQuery, result.state, loggedOut).Err?)
      ensures thrown ==> unchanged(this)
      ensures result.Success? && !thrown ==>
        && navigations == old(navigations) + [GetReturnUrl(origin, fromQuery, result.state, loggedOut).value]
        && message == old(message) && signOutRequests == old(signOutRequests) && isReady == old(isReady)
      ensures result.Success? && !thrown && !(result.state.Some? && result.state.value.returnUrl != "") ==>
        OnOrigin(navigations[|navigations| - 1]) || navigations[|navigations| - 1] == loggedOut
      ensures result.Fail? ==>
        && message == Some(result.message)
        && navigations == old(navigations) && signOutRequests == old(signOutRequests) && isReady == old(isReady)
    {
      thrown := false;
      match result
      case Redirect =>
        thrown := true;
      case Success(state) =>
        var returnUrl := GetReturnUrl(origin, fromQuery, state, loggedOut);
        if returnUrl.Err? {
          thrown := true;
        } else {
          navigations := navigations + [returnUrl.value];
        }
      case Fail(failure) =>
        message := Some(failure);
    }

    /** `setReady(message)`, which `processFrontChannelLogout` calls with
        `FrontChannelMessage` once `completeSignOut` has settled. */
    method SetReady(message: string)
      modifies this
      ensures this.message == Some(message) && isReady
      ensures signOutRequests == old(signOutRequests) && navigations == old(navigations)
    {
      this.message := Some(message);
      isReady := true;
    }

    /** `processFrontChannelLogout`: `resolved` says whether the awaited
        `completeSignOut` resolved (with any result) or rejected, as it does
        when the user manager cannot be initialised. Only once it resolves
        does the page report the logout and become ready. */
    method ProcessFrontChannelLogout(resolved: bool)
      modifies this
      ensures resolved ==> message == Some(FrontChannelMessage) && isReady
      ensures !resolved ==> unchanged(this)
      ensures signOutRequests == old(signOutRequests) && navigations == old(navigations)
    {
      if resolved {
        SetReady(FrontChannelMessage);
      }
    }
  }

  /** The "logout" action for a visitor without an access token: the page
      reports the logout and never calls `signOut`. */
  method LogoutWithoutToken() returns (message: Option<string>, signOutRequests: seq<SigninState>, navigations: seq<string>)
    ensures message == Some(LoggedOutMessage) && signOutRequests == [] && navigations == []
  {
    var paths := Paths("app");
    var store := new LogoutStore();
    var returnUrl := GetReturnUrlAsWritten("https://app.example", None, None, paths.loggedOut);
    if returnUrl.Ok? {
      store.Logout(returnUrl.value, None, Redirect);
    }
    assert returnUrl.Ok?;
    message := store.message;
    signOutRequests := store.signOutRequests;
    navigations := store.navigations;
  }

  /** The "logout" action for a signed-in user with no query URL: `signOut`
      is asked to return to the signed-out page, and a popup sign-out that
      succeeds goes there. */
  method LogoutReturnsToLoggedOutPage() returns (signOutRequests: seq<SigninState>, navigations: seq<string>)
    ensures signOutRequests == [SigninState("/account/logout")] && navigations == ["/account/logout"]
  {
    var paths := Paths("app");
    var store := new LogoutStore();
    var returnUrl := GetReturnUrlAsWritten("https://app.example", None, None, paths.loggedOut);
    if returnUrl.Ok? {
      store.Logout(returnUrl.value, Some("token"), ReturnStatus.Success(Some(SigninState(returnUrl.value))));
    }
    signOutRequests := store.signOutRequests;
    navigations := store.navigations;
  }

  /** After a sign-out that succeeds without a state, the callback as
      written follows the query URL `https://app.example//evil.example` to
      another host; with the intended origin test it throws and stays put. */
  method CallbackOpenRedirect() returns (asWritten: seq<string>, asWrittenThrew: bool, onOrigin: seq<string>, onOriginThrew: bool)
    ensures asWritten == ["//evil.example"] && !asWrittenThrew
    ensures onOrigin == [] && onOriginThrew
  {
    var origin := "https://app.example";
    var query := "https://app.example//evil.example";
    var loggedOut := Paths("app").loggedOut;
    LogoutOpenRedirect(loggedOut);
    StripOrigin(origin, query);
    assert query[|origin|..] == "//evil.example";
    var page := new LogoutStore();
    asWrittenThrew := page.ProcessLogoutCallback(origin, Some(query), loggedOut, ReturnStatus.Success(None));
    asWritten := page.navigations;
    var safePage := new LogoutStore();
    onOriginThrew := safePage.ProcessLogoutCallbackOnOrigin(origin, Some(query), loggedOut, ReturnStatus.Success(None));
    onOrigin := safePage.navigations;
  }
}
