/**
  * The login / sign-up form: on submit it stores a fresh token and a user
  * record and sends the user on, back to the page the route guard turned
  * them away from when there is one.
  *
  * Submission is two events: `HandleSubmit` (the synchronous part) and
  * `CompleteSubmit` (the delayed callback). The callback's clock and random
  * digits, the record's creation time and the sign-up name field's value are
  * parameters.
  */
module LoginForm {
  import opened Wrappers
  import opened Strings
  import opened Session
  import ProtectedRoute

  const StyleSelectionPath: string := "/style-selection"
  const TokenPrefix: string := "user_"

  /** `location.state?.from?.pathname || "/"`. */
  function FromPath(location: ProtectedRoute.Location): (p: string)
    ensures p != ""
    ensures p == ProtectedRoute.HomePath <==>
              !(location.state.Some? && location.state.value.from.Some?) ||
              location.state.value.from.value.pathname in {"", ProtectedRoute.HomePath}
    ensures p != ProtectedRoute.HomePath ==> p == location.state.value.from.value.pathname
  {
    if location.state.Some? && location.state.value.from.Some? && location.state.value.from.value.pathname != ""
    then location.state.value.from.value.pathname
    else ProtectedRoute.HomePath
  }

  /** Where a completed submit navigates: never back to the home page. */
  function RedirectTarget(isSignUp: bool, from: string): (t: string)
    ensures t != ProtectedRoute.HomePath
    ensures isSignUp ==> t == StyleSelectionPath
    ensures !isSignUp && from != ProtectedRoute.HomePath ==> t == from
    ensures t == StyleSelectionPath || t == from
  {
    if isSignUp then StyleSelectionPath
    else if from == ProtectedRoute.HomePath then StyleSelectionPath else from
  }

  /** `user_${Date.now()}_${random}`. */
  function Token(now: nat, random36: string): (t: string)
    ensures TokenPrefix <= t && t != ""
  {
    TokenPrefix + NatToDecimal(now) + "_" + random36
  }

  /** The stored record: the entered email, active, and `"User"` as name unless signing up. */
  function NewUserInfo(isSignUp: bool, email: string, nameField: Option<string>, createdAt: string): (r: UserRecord)
    ensures r.email == Some(email) && r.isActive == Some(true) && r.createdAt == Some(createdAt)
    ensures r.name == if isSignUp then nameField else Some("User")
    ensures r.subscription.None?
  {
    UserRecord(if isSignUp then nameField else Some("User"), Some(email), Some(true), Some(createdAt), None)
  }

  /** The two store writes of a completed submit. */
  function SignIn(items: Items, token: string, info: UserRecord): (r: Items)
    ensures r.Keys == items.Keys + {TokenKey, InfoKey}
    ensures r[TokenKey] == Text(token) && r[InfoKey] == Record(info)
    ensures forall k :: k in items && k != TokenKey && k != InfoKey ==> r[k] == items[k]
  {
    items[TokenKey := Text(token)][InfoKey := Record(info)]
  }

  /** What the submit callback captured: the entered email and the `from` path. */
  datatype PendingSubmit = PendingSubmit(email: string, from: string)

  class Form {
    const isSignUp: bool
    const location: ProtectedRoute.Location
    var isLoading: bool
    var email: string
    var password: string

    constructor (isSignUp: bool, location: ProtectedRoute.Location)
      ensures this.isSignUp == isSignUp && this.location == location
      ensures !isLoading && email == "" && password == ""
    {
      this.isSignUp := isSignUp;
      this.location := location;
      isLoading := false;
      email := "";
      password := "";
    }

    method SetEmail(value: string)
      modifies this
      ensures email == value && password == old(password) && isLoading == old(isLoading)
    {
      email := value;
    }

    method SetPassword(value: string)
      modifies this
      ensures password == value && email == old(email) && isLoading == old(isLoading)
    {
      password := value;
    }

    /**
      * The synchronous part of `handleSubmit`: the form becomes busy; nothing
      * is checked. The delayed callback is a closure over this render's
      * email and `from`, returned here.
      */
    method HandleSubmit() returns (pending: PendingSubmit)
      modifies this
      ensures isLoading && email == old(email) && password == old(password)
      ensures pending == PendingSubmit(email, FromPath(location))
    {
      isLoading := true;
      pending := PendingSubmit(email, FromPath(location));
    }

    /**
      * The delayed part of `handleSubmit`: writes the token and the record,
      * stops loading and returns the path to navigate to. The password is
      * never looked at.
      */
    method CompleteSubmit(pending: PendingSubmit, store: LocalStorage, now: nat, random36: string,
                          nameField: Option<string>, createdAt: string)
      returns (target: string)
      modifies this, store
      ensures store.items == SignIn(old(store.items), Token(now, random36),
                                    NewUserInfo(isSignUp, pending.email, nameField, createdAt))
      ensures !isLoading && email == old(email) && password == old(password)
      ensures target == RedirectTarget(isSignUp, pending.from)
    {
      var token := TokenPrefix + NatToDecimal(now) + "_" + random36;
      store.SetItem(TokenKey, Text(token));
      var name := if isSignUp then nameField else Some("User");
      store.SetItem(InfoKey, Record(UserRecord(name, Some(pending.email), Some(true), Some(createdAt), None)));
      isLoading := false;
      if isSignUp {
        target := StyleSelectionPath;
      } else {
        target := if pending.from == ProtectedRoute.HomePath then StyleSelectionPath else pending.from;
      }
    }
  }
}
