/**
  * Properties that span several components sharing the session store: the
  * route guard, the login form, the header and the account settings page.
  */
module Flows {
  import opened Wrappers
  import opened Session
  import ProtectedRoute
  import LoginForm
  import Header
  import AccountSettings

  /** The location the login page sees after the guard's redirect. */
  function LoginLocation(v: ProtectedRoute.View): (l: ProtectedRoute.Location)
    requires v.Navigate?
    ensures l.pathname == v.to && l.state == Some(v.state)
  {
    ProtectedRoute.Location(v.to, Some(v.state))
  }

  /**
    * A signed-out visit to a guarded path other than `/` is sent to the
    * login page; logging in there brings the user back to that same path,
    * which the guard now lets through, and the header shows them logged in.
    */
  lemma {:induction false} GuardLoginRoundTrip(items: Items, location: ProtectedRoute.Location, email: string,
                                               now: nat, random36: string, createdAt: string)
    requires !ProtectedRoute.HasToken(items)
    requires location.pathname != ProtectedRoute.HomePath && location.pathname != ""
    ensures ProtectedRoute.Decide(items, location).Navigate?
    ensures
      var redirect := ProtectedRoute.Decide(items, location);
      var from := LoginForm.FromPath(LoginLocation(redirect));
      var target := LoginForm.RedirectTarget(false, from);
      var after := LoginForm.SignIn(items, LoginForm.Token(now, random36),
                                    LoginForm.NewUserInfo(false, email, None, createdAt));
      redirect.to == ProtectedRoute.LoginPath && redirect.replace &&
      from == location.pathname && target == location.pathname &&
      ProtectedRoute.Decide(after, ProtectedRoute.Location(target, None)) == ProtectedRoute.Children &&
      Header.LoggedIn(after)
  {
    var redirect := ProtectedRoute.Decide(items, location);
    var l := LoginLocation(redirect);
    assert l.state.value.from == Some(location);
    var after := LoginForm.SignIn(items, LoginForm.Token(now, random36),
                                  LoginForm.NewUserInfo(false, email, None, createdAt));
    assert after[TokenKey] == Text(LoginForm.Token(now, random36));
  }

  /** Every completed submit leaves a token that both the guard and the header accept. */
  lemma SubmitAuthenticates(items: Items, isSignUp: bool, email: string, nameField: Option<string>,
                            now: nat, random36: string, createdAt: string, location: ProtectedRoute.Location)
    ensures
      var after := LoginForm.SignIn(items, LoginForm.Token(now, random36),
                                    LoginForm.NewUserInfo(isSignUp, email, nameField, createdAt));
      ProtectedRoute.HasToken(after) && Header.LoggedIn(after) &&
      ProtectedRoute.Decide(after, location) == ProtectedRoute.Children
  {
    var token := LoginForm.Token(now, random36);
    assert token != "";
  }

  /**
    * After a plain login the header names the user `"User"`, and the account
    * page fills its form with that name and the entered email.
    */
  lemma LoginThenHeaderAndSettings(items: Items, email: string, now: nat, random36: string, createdAt: string,
                                   previous: Option<UserRecord>, form: AccountSettings.FormData)
    ensures
      var after := LoginForm.SignIn(items, LoginForm.Token(now, random36),
                                    LoginForm.NewUserInfo(false, email, None, createdAt));
      var loaded := AccountSettings.Load(AccountSettings.Loaded(previous, form), after);
      Header.DisplayName(Header.InfoAfterCheck(previous, after)) == "User" &&
      loaded.form.name == "User" && loaded.form.email == email
  {
    var after := LoginForm.SignIn(items, LoginForm.Token(now, random36),
                                  LoginForm.NewUserInfo(false, email, None, createdAt));
    assert Header.LoggedIn(after) by {
      assert LoginForm.Token(now, random36) != "";
    }
  }

  /**
    * The record a submit stores has no subscription, so the account page
    * shows the free plan and an inactive status, yet offers no upgrade.
    */
  lemma FreshAccountPlanDisplay(items: Items, isSignUp: bool, email: string, nameField: Option<string>,
                                token: string, createdAt: string, form: AccountSettings.FormData)
    ensures
      var after := LoginForm.SignIn(items, token, LoginForm.NewUserInfo(isSignUp, email, nameField, createdAt));
      var info := AccountSettings.Load(AccountSettings.Loaded(None, form), after).userInfo;
      info.Some? &&
      AccountSettings.GetPlanDetails(AccountSettings.DisplayedPlan(info)) == AccountSettings.FreePlan &&
      AccountSettings.StatusLabel(info) == "Inactive" && !AccountSettings.ShowsUpgrade(info)
  {
    AccountSettings.FreePlanDisplayVersusUpgrade(
      Some(LoginForm.NewUserInfo(isSignUp, email, nameField, createdAt)));
  }

  /** After logout neither the guard nor the header sees a session. */
  lemma LogoutRevokesAccess(items: Items, location: ProtectedRoute.Location, previous: Option<UserRecord>)
    ensures
      var after := Header.SignOut(items);
      !ProtectedRoute.HasToken(after) && !Header.LoggedIn(after) &&
      ProtectedRoute.Decide(after, location).Navigate? &&
      Header.InfoAfterCheck(previous, after).None?
  {
  }

  /** Logging out after a login leaves the store as logging out before it would have. */
  lemma {:induction false} LogoutUndoesLogin(items: Items, token: string, info: UserRecord)
    ensures Header.SignOut(LoginForm.SignIn(items, token, info)) == Header.SignOut(items)
  {
    var lhs := Header.SignOut(LoginForm.SignIn(items, token, info));
    var rhs := Header.SignOut(items);
    assert lhs.Keys == rhs.Keys;
    forall k | k in lhs.Keys
      ensures lhs[k] == rhs[k]
    {
    }
  }

  /**
    * The guard and the header disagree exactly when the stored token is the
    * empty string: the guard lets the user in, the header shows them logged out.
    */
  lemma EmptyTokenDisagreement(items: Items)
    ensures ProtectedRoute.HasToken(items) != Header.LoggedIn(items) <==>
              TokenKey in items && items[TokenKey] == Text("")
    ensures TokenKey in items && items[TokenKey] == Text("") ==>
              ProtectedRoute.HasToken(items) && !Header.LoggedIn(items)
  {
  }
}
