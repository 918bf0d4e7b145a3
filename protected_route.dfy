/**
  * The route guard: it checks the stored token once, after mounting, and
  * then renders its children or redirects to the login page, remembering
  * where the user was going.
  */
module ProtectedRoute {
  import opened Wrappers
  import opened Session

  /** A router location; `state` is what a redirect attached to it. */
  datatype Location = Location(pathname: string, state: Option<NavState>)

  datatype NavState = NavState(from: Option<Location>)

  const HomePath: string := "/"
  const LoginPath: string := "/login"

  /**
    * `isAuthenticated` on a store's contents: `getItem(...) !== null`, so any
    * stored token counts, the empty string included.
    */
  predicate HasToken(items: Items): (b: bool)
    ensures b <==> TokenKey in items
    ensures TokenKey in items && items[TokenKey] == Text("") ==> b && !Present(items, TokenKey)
    ensures Present(items, TokenKey) ==> b
  {
    TokenKey in items
  }

  /** What the guard renders. */
  datatype View = Spinner | Navigate(to: string, state: NavState, replace: bool) | Children

  /** `isAuthenticated`, reading the store. */
  method IsAuthenticated(store: LocalStorage) returns (r: bool)
    ensures r <==> TokenKey in store.items
  {
    var token := store.GetItem(TokenKey);
    r := token != None;
  }

  class Route {
    const location: Location
    var loading: bool
    var authenticated: bool

    constructor (location: Location)
      ensures this.location == location && loading && !authenticated
    {
      this.location := location;
      loading := true;
      authenticated := false;
    }

    /** The mount effect: record the check and stop loading. */
    method CheckAuth(store: LocalStorage)
      modifies this
      ensures !loading && authenticated == HasToken(store.items)
    {
      var status := IsAuthenticated(store);
      authenticated := status;
      loading := false;
    }

    /**
      * While loading nothing but the spinner; then the children exactly when
      * authenticated, otherwise a replacing redirect to `/login` that carries
      * the current location.
      */
    function Render(): (v: View)
      reads this
      ensures v.Spinner? <==> loading
      ensures v.Children? <==> !loading && authenticated
      ensures v.Navigate? ==> v.to == LoginPath && v.replace && v.state.from == Some(location)
    {
      if loading then Spinner
      else if !authenticated then Navigate(LoginPath, NavState(Some(location)), true)
      else Children
    }
  }

  /** The decision the guard reaches once its check has run on a store. */
  function Decide(items: Items, location: Location): (v: View)
    ensures v.Children? <==> HasToken(items)
    ensures !v.Children? ==> v == Navigate(LoginPath, NavState(Some(location)), true)
  {
    if HasToken(items) then Children else Navigate(LoginPath, NavState(Some(location)), true)
  }

  /** A guard that has run its check renders what `Decide` says. */
  method MountAndRender(store: LocalStorage, location: Location) returns (v: View)
    ensures v == Decide(store.items, location)
  {
    var route := new Route(location);
    assert route.Render() == Spinner;
    route.CheckAuth(store);
    v := route.Render();
  }
}
