/**
  * The browser's `localStorage` as the authentication stub uses it: a map
  * from key to stored value under two keys, the login token and the
  * serialized user record.
  *
  * A stored value is either plain text or the serialization of a user
  * record. `JSON.parse` of a record's serialization gives the record back;
  * plain text stands for any string that does not parse to a record, which
  * is the parse-failure branch of the readers.
  */
module Session {
  import opened Wrappers

  const TokenKey: string := "toonifyMe_userToken"
  const InfoKey: string := "toonifyMe_userInfo"

  datatype Subscription = Subscription(plan: Option<string>, status: Option<string>)

  /** A user record; absent properties are `None`. */
  datatype UserRecord = UserRecord(
    name: Option<string>,
    email: Option<string>,
    isActive: Option<bool>,
    createdAt: Option<string>,
    subscription: Option<Subscription>)

  datatype Stored = Text(text: string) | Record(record: UserRecord)

  type Items = map<string, Stored>

  /** `if (localStorage.getItem(k))`: absent and the empty string are falsy; a serialized record never is. */
  predicate Present(items: Items, key: string) {
    key in items && (items[key].Record? || items[key].text != "")
  }

  /** `JSON.parse` of a stored value, `None` where it throws. */
  function Parse(v: Stored): (r: Option<UserRecord>)
    ensures r.Some? <==> v.Record?
  {
    if v.Record? then Some(v.record) else None
  }

  class LocalStorage {
    var items: Items

    constructor (initial: Items)
      ensures items == initial
    {
      items := initial;
    }

    method GetItem(key: string) returns (v: Option<Stored>)
      ensures v.Some? <==> key in items
      ensures v.Some? ==> v.value == items[key]
    {
      v := if key in items then Some(items[key]) else None;
    }

    method SetItem(key: string, v: Stored)
      modifies this
      ensures items == old(items)[key := v]
    {
      items := items[key := v];
    }

    method RemoveItem(key: string)
      modifies this
      ensures items == old(items) - {key}
    {
      items := items - {key};
    }
  }
}
