/** The login page: which URL to return to after signing in, and what the
    page does with the result of a sign-in. `window.location.origin` and the
    `returnUrl` query parameter are inputs; navigation is recorded. */
module LoginPage {
  import opened Common
  import opened Strings
  import opened Authorize
  import opened ReturnUrls

  /** `getReturnUrl(state)` as written: the query URL is checked first, then
      a non-empty `state.returnUrl` wins, then the query URL without its
      origin, then the origin's root. `Err` is the thrown error. */
  function GetReturnUrlAsWritten(origin: string, fromQuery: Option<string>, state: Option<SigninState>): (r: Result<string, string>)
    ensures r.Err? <==> NonEmpty(fromQuery) && !PassesOriginCheck(origin, fromQuery.value)
    ensures r.Ok? && state.Some? && state.value.returnUrl != "" ==> r.value == state.value.returnUrl
    ensures r.Ok? && !(state.Some? && state.value.returnUrl != "") && NonEmpty(fromQuery) ==>
      r.value == fromQuery.value[|origin|..] && r.value[0] == '/'
    ensures r.Ok? && !(state.Some? && state.value.returnUrl != "") && !NonEmpty(fromQuery) ==>
      r.value == origin + "/"
  {
    StripOrigin(origin, if fromQuery.Some? then fromQuery.value else "");
    if NonEmpty(fromQuery) && !StartsWith(fromQuery.value, origin + "/") then
      Err(InvalidReturnUrl)
    else if state.Some? && state.value.returnUrl != "" then
      Ok(state.value.returnUrl)
    else if NonEmpty(fromQuery) && ReplaceFirst(fromQuery.value, origin, "") != "" then
      Ok(ReplaceFirst(fromQuery.value, origin, ""))
    else
      Ok(origin + "/")
  }

  /** The origin test lets a query URL through that sends the user to another
      host once the origin is stripped. */
  lemma LoginOpenRedirect()
    ensures GetReturnUrlAsWritten("https://app.example", Some("https://app.example//evil.example"), None)
      == Ok("//evil.example")
    ensures !OnOrigin("//evil.example")
  {
    OriginCheckLetsOtherHostThrough();
  }

  /** `getReturnUrl(state)` with the origin test the comment intends: the query URL
      must also stay on the origin once stripped. */
  function GetReturnUrl(origin: string, fromQuery: Option<string>, state: Option<SigninState>): (r: Result<string, string>)
    ensures r.Err? <==> NonEmpty(fromQuery) && !PassesStrictOriginCheck(origin, fromQuery.value)
    ensures r.Ok? && !(state.Some? && state.value.returnUrl != "") ==>
      OnOrigin(r.value) || r.value == origin + "/"
  {
    if NonEmpty(fromQuery) && !PassesStrictOriginCheck(origin, fromQuery.value) then
      Err(InvalidReturnUrl)
    else
      GetReturnUrlAsWritten(origin, fromQuery, state)
  }

  /** The corrected check only refuses more: whatever it accepts, the code
      as written returns too, and it refuses exactly the query URLs that
      would leave the origin. */
  lemma CorrectedRefusesOnlyOffOrigin(origin: string, fromQuery: Option<string>, state: Option<SigninState>)
    ensures GetReturnUrl(origin, fromQuery, state).Ok? ==>
      GetReturnUrl(origin, fromQuery, state) == GetReturnUrlAsWritten(origin, fromQuery, state)
    ensures GetReturnUrl(origin, fromQuery, state).Err? && GetReturnUrlAsWritten(origin, fromQuery, state).Ok? ==>
      !OnOrigin(ReplaceFirst(fromQuery.value, origin, ""))
  {
    if NonEmpty(fromQuery) {
      StrictCheckMeansOnOrigin(origin, fromQuery.value);
    }
  }
  /** A tab between the slashes, which `URLSearchParams` decodes from "%09":
      as written the page returns "/\t/evil.example", which the browser reads
      as another host; the intended check refuses it. */
  lemma TabbedQueryRefused()
    ensures GetReturnUrlAsWritten("https://app.example", Some("https://app.example/\t/evil.example"), None)
      == Ok("/\t/evil.example")
    ensures !OnOrigin("/\t/evil.example")
    ensures GetReturnUrl("https://app.example", Some("https://app.example/\t/evil.example"), None).Err?
  {
    TabDoesNotSlipThrough();
    TabIsDropped();
    StripOrigin("https://app.example", "https://app.example/\t/evil.example");
  }


  /** The page's local store: the message shown, and the URLs passed to
      `window.location.replace`. */
  class LoginStore {
    var message: Option<string>
    var navigations: seq<string>

    constructor ()
      ensures message == None && navigations == []
    {
      message := None;
      navigations := [];
    }

    /** `setMessage(message)`. */
    method SetMessage(message: Option<string>)
      modifies this
      ensures this.message == message && navigations == old(navigations)
    {
      this.message := message;
    }

    /** `navigateToReturnUrl(returnUrl)`. */
    method NavigateToReturnUrl(returnUrl: string)
      modifies this
      ensures navigations == old(navigations) + [returnUrl] && message == old(message)
    {
      navigations := navigations + [returnUrl];
    }

    /** The end of `login(returnUrl)`, once `signIn` has settled with
        `result`: a redirect leaves the page to the identity provider, a
        success returns, a failure shows its message. */
    method Login(returnUrl: string, result: ReturnStatus)
      modifies this
      ensures result.Redirect? ==> unchanged(this)
      ensures result.Success? ==> navigations == old(navigations) + [returnUrl] && message == old(message)
      ensures result.Fail? ==> message == Some(result.message) && navigations == old(navigations)
    {
      match result
      case Redirect =>
      case Success(_) => NavigateToReturnUrl(returnUrl);
      case Fail(failure) => SetMessage(Some(failure));
    }

    /** The end of `processLoginCallback`, once `completeSignIn` has settled
        with `result`. `thrown` is set where the source throws: on a
        redirect, and when `getReturnUrl` refuses the return URL. */
    method ProcessLoginCallback(origin: string, fromQuery: Option<string>, result: ReturnStatus) returns (thrown: bool)
      modifies this
      ensures thrown <==> result.Redirect? || (result.Success? && GetReturnUrlAsWritten(origin, fromQuery, result.state).Err?)
      ensures thrown ==> unchanged(this)
      ensures result.Success? && !thrown ==>
        navigations == old(navigations) + [GetReturnUrlAsWritten(origin, fromQuery, result.state).value] && message == old(message)
      ensures result.Fail? ==> message == Some(result.message) && navigations == old(navigations)
    {
      thrown := false;
      match result
      case Redirect =>
        thrown := true;
      case Success(state) =>
        var returnUrl := GetReturnUrlAsWritten(origin, fromQuery, state);
        if returnUrl.Err? {
          thrown := true;
        } else {
          NavigateToReturnUrl(returnUrl.value);
        }
      case Fail(failure) =>
        SetMessage(Some(failure));
    }

    /** `processLoginCallback` with the intended origin test: a return URL
        that does not come from the sign-in state never leaves the origin. */
    method ProcessLoginCallbackOnOrigin(origin: string, fromQuery: Option<string>, result: ReturnStatus) returns (thrown: bool)
      modifies this
      ensures thrown <==> result.Redirect? || (result.Success? && GetReturnUrl(origin, fromQuery, result.state).Err?)
      ensures thrown ==> unchanged(this)
      ensures result.Success? && !thrown ==>
        navigations == old(navigations) + [GetReturnUrl(origin, fromQuery, result.state).value] && message == old(message)
      ensures result.Success? && !thrown && !(result.state.Some? && result.state.value.returnUrl != "") ==>
        OnOrigin(navigations[|navigations| - 1]) || navigations[|navigations| - 1] == origin + "/"
      ensures result.Fail? ==> message == Some(result.message) && navigations == old(navigations)
    {
      thrown := false;
      match result
      case Redirect =>
        thrown := true;
      case Success(state) =>
        var returnUrl := GetReturnUrl(origin, fromQuery, state);
        if returnUrl.Err? {
          thrown := true;
        } else {
          NavigateToReturnUrl(returnUrl.value);
        }
      case Fail(failure) =>
        SetMessage(Some(failure));
    }
  }

  /** After a sign-in that succeeds without a state, the callback as written
      follows the query URL `https://app.example//evil.example` to another
      host; with the intended origin test it throws and stays put. */
  method CallbackOpenRedirect() returns (asWritten: seq<string>, asWrittenThrew: bool, onOrigin: seq<string>, onOriginThrew: bool)
    ensures asWritten == ["//evil.example"] && !asWrittenThrew
    ensures onOrigin == [] && onOriginThrew
  {
    var origin := "https://app.example";
    var query := "https://app.example//evil.example";
    LoginOpenRedirect();
    StripOrigin(origin, query);
    assert query[|origin|..] == "//evil.example";
    var page := new LoginStore();
    asWrittenThrew := page.ProcessLoginCallback(origin, Some(query), ReturnStatus.Success(None));
    asWritten := page.navigations;
    var safePage := new LoginStore();
    onOriginThrew := safePage.ProcessLoginCallbackOnOrigin(origin, Some(query), ReturnStatus.Success(None));
    onOrigin := safePage.navigations;
  }

  /** The "login" action end to end: the query URL is validated and
      stripped, sign-in succeeds, and the page returns to the path. */
  method LoginReturnsToQueryPath() returns (navigations: seq<string>)
    ensures navigations == ["/orders"]
  {
    var origin := "https://app.example";
    var query := "https://app.example/orders";
    assert query == origin + "/" + "orders";
    assert query[..|origin + "/"|] == origin + "/";
    assert query[|origin|..] == "/orders";
    var store := new LoginStore();
    var returnUrl := GetReturnUrlAsWritten(origin, Some(query), None);
    if returnUrl.Ok? {
      store.Login(returnUrl.value, ReturnStatus.Success(Some(SigninState(returnUrl.value))));
    }
    navigations := store.navigations;
  }

  /** A failed sign-in shows its message and navigates nowhere. */
  method FailedLoginShowsMessage() returns (message: Option<string>, navigations: seq<string>)
    ensures message == Some("The user closed the window.") && navigations == []
  {
    var store := new LoginStore();
    store.Login("/", Fail("The user closed the window."));
    message := store.message;
    navigations := store.navigations;
  }
}
