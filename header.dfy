/**
  * The site header: it derives the logged-in state and the user record from
  * the store whenever the location changes, logs out, and drives the
  * mobile menu and the section links.
  */
module Header {
  import opened Wrappers
  import opened Strings
  import opened Session
  import ProtectedRoute

  /** `isHomePage`: only the root path, not `/#...` or any other. */
  predicate IsHomePage(location: ProtectedRoute.Location): (b: bool)
    ensures b <==> location.pathname == "/"
  {
    location.pathname == ProtectedRoute.HomePath
  }

  /**
    * `!!localStorage.getItem(token)`: a stored token that is not the empty
    * string. Stricter than the guard's test, which admits an empty token.
    */
  predicate LoggedIn(items: Items): (b: bool)
    ensures b ==> ProtectedRoute.HasToken(items)
    ensures b <==> TokenKey in items && items[TokenKey] != Text("")
  {
    Present(items, TokenKey)
  }

  /**
    * The user record after `checkAuth`: dropped without a token; with a
    * token, the stored record when it parses, otherwise the previous one.
    */
  function InfoAfterCheck(previous: Option<UserRecord>, items: Items): (r: Option<UserRecord>)
    ensures !LoggedIn(items) ==> r.None?
    ensures LoggedIn(items) && InfoKey in items && items[InfoKey].Record? ==> r == Some(items[InfoKey].record)
    ensures LoggedIn(items) && !(InfoKey in items && items[InfoKey].Record?) ==> r == previous
  {
    if !LoggedIn(items) then None
    else if Present(items, InfoKey) then
      match Parse(items[InfoKey])
      case Some(record) => Some(record)
      case None => previous
    else previous
  }

  /** The store after logout: both keys removed, everything else kept. */
  function SignOut(items: Items): (r: Items)
    ensures TokenKey !in r && InfoKey !in r
    ensures forall k :: k in items && k != TokenKey && k != InfoKey ==> k in r && r[k] == items[k]
    ensures r.Keys <= items.Keys
  {
    items - {TokenKey, InfoKey}
  }

  /** The name on the profile button: the record's name, or `"User"` when absent or empty. */
  function DisplayName(info: Option<UserRecord>): (n: string)
    ensures n != ""
    ensures info.Some? && Truthy(info.value.name) ==> n == info.value.name.value
    ensures !(info.Some? && Truthy(info.value.name)) ==> n == "User"
  {
    if info.Some? && Truthy(info.value.name) then info.value.name.value else "User"
  }

  class Nav {
    const location: ProtectedRoute.Location
    var isLoggedIn: bool
    var userInfo: Option<UserRecord>
    var mobileMenuOpen: bool

    constructor (location: ProtectedRoute.Location)
      ensures this.location == location && !isLoggedIn && userInfo.None? && !mobileMenuOpen
    {
      this.location := location;
      isLoggedIn := false;
      userInfo := None;
      mobileMenuOpen := false;
    }

    /** `checkAuth`, run on mount and on every location change. */
    method CheckAuth(store: LocalStorage)
      modifies this
      ensures isLoggedIn == LoggedIn(store.items)
      ensures userInfo == InfoAfterCheck(old(userInfo), store.items)
      ensures mobileMenuOpen == old(mobileMenuOpen)
    {
      var token := store.GetItem(TokenKey);
      var tokenTruthy := token.Some? && (token.value.Record? || token.value.text != "");
      isLoggedIn := tokenTruthy;
      if tokenTruthy {
        var infoStr := store.GetItem(InfoKey);
        if infoStr.Some? && (infoStr.value.Record? || infoStr.value.text != "") {
          var parsed := Parse(infoStr.value);
          if parsed.Some? {
            userInfo := parsed;
          }
        }
      } else {
        userInfo := None;
      }
    }

    /** `handleLogout`: clears the store and the state, closes the menu, goes home. */
    method HandleLogout(store: LocalStorage) returns (navigateTo: string)
      modifies this, store
      ensures store.items == SignOut(old(store.items))
      ensures !isLoggedIn && userInfo.None? && !mobileMenuOpen
      ensures navigateTo == ProtectedRoute.HomePath
    {
      store.RemoveItem(TokenKey);
      store.RemoveItem(InfoKey);
      isLoggedIn := false;
      userInfo := None;
      navigateTo := ProtectedRoute.HomePath;
      mobileMenuOpen := false;
    }

    method ToggleMobileMenu()
      modifies this
      ensures mobileMenuOpen == !old(mobileMenuOpen)
      ensures isLoggedIn == old(isLoggedIn) && userInfo == old(userInfo)
    {
      mobileMenuOpen := !mobileMenuOpen;
    }

    /** The menu links' `setMobileMenuOpen(false)`. */
    method CloseMobileMenu()
      modifies this
      ensures !mobileMenuOpen && isLoggedIn == old(isLoggedIn) && userInfo == old(userInfo)
    {
      mobileMenuOpen := false;
    }

    /**
      * A section link: the menu closes; on the home page the window scrolls
      * (not modelled), elsewhere the location becomes `/#` and the section id.
      */
    method ScrollToSection(sectionId: string) returns (href: Option<string>)
      modifies this
      ensures !mobileMenuOpen && isLoggedIn == old(isLoggedIn) && userInfo == old(userInfo)
      ensures href.None? <==> IsHomePage(location)
      ensures href.Some? ==> href.value == "/#" + sectionId
    {
      mobileMenuOpen := false;
      if location.pathname == ProtectedRoute.HomePath {
        href := None;
      } else {
        href := Some("/#" + sectionId);
      }
    }
  }
}
