/**
 * The browser's `localStorage`, as the login page writes it and the dashboards
 * and settings pages read it: a string-to-string map under the keys `username`,
 * `role` and `token`.
 */
module Session {
  import opened Common

  const UsernameKey := "username"
  const RoleKey := "role"
  const TokenKey := "token"

  /** `localStorage.getItem(key)`: `None` stands for `null`. */
  function GetItem(items: map<string, string>, key: string): (r: Option<string>)
    ensures r.Some? <==> key in items
    ensures r.Some? ==> r.value == items[key]
  {
    if key in items then Some(items[key]) else None
  }

  /** The user a component sees as signed in: the stored `username` when it is
      present and not empty (`!storedUsername` is true for both `null` and ""). */
  function SignedInUser(items: map<string, string>): (r: Option<string>)
    ensures r.Some? <==> UsernameKey in items && items[UsernameKey] != ""
    ensures r.Some? ==> r.value == items[UsernameKey]
  {
    match GetItem(items, UsernameKey)
    case Some(u) => if u != "" then Some(u) else None
    case None => None
  }

  /** The storage a successful login leaves: `username` and `role` overwritten. */
  function SignedIn(items: map<string, string>, username: string, role: string): map<string, string>
  {
    items[UsernameKey := username][RoleKey := role]
  }

  /** The storage a logout leaves: `token` and `username` removed, nothing else. */
  function SignedOut(items: map<string, string>): map<string, string>
  {
    items - {TokenKey, UsernameKey}
  }

  /** After a login with a non-empty username the dashboards see that user, and
      the stored role is the one written. */
  lemma SignInThenRead(items: map<string, string>, username: string, role: string)
    requires username != ""
    ensures SignedInUser(SignedIn(items, username, role)) == Some(username)
    ensures GetItem(SignedIn(items, username, role), RoleKey) == Some(role)
  {
    assert UsernameKey != RoleKey;
  }

  /** After a logout no user is signed in, whatever was stored before; every key
      other than `token` and `username`, `role` included, keeps its value. */
  lemma SignOutThenRead(items: map<string, string>)
    ensures SignedInUser(SignedOut(items)) == None
    ensures forall k :: k != TokenKey && k != UsernameKey ==> GetItem(SignedOut(items), k) == GetItem(items, k)
    ensures GetItem(SignedOut(items), RoleKey) == GetItem(items, RoleKey)
  {
    assert RoleKey != TokenKey && RoleKey != UsernameKey;
  }

  /** The key/value store itself, shared by the components of one browser tab. */
  class Store {
    var items: map<string, string>

    constructor (initial: map<string, string>)
      ensures items == initial
    {
      items := initial;
    }

    method SetItem(key: string, value: string)
      modifies this`items
      ensures items == old(items)[key := value]
    {
      items := items[key := value];
    }

    method RemoveItem(key: string)
      modifies this`items
      ensures items == old(items) - {key}
    {
      items := items - {key};
    }
  }
}
