/**
 * The student dashboard's shell: the session gate run when it mounts, logout,
 * the collapsible sidebar and the header avatar's address.
 */
module StudentDashboard {
  import opened Common
  import Session

  const LoginPath := "/login"
  const AvatarPrefix := "/api/settings/profile-picture?username="

  /** The address the header avatar is loaded from; the username is inserted as is. */
  function AvatarUrl(username: string): (url: string)
    ensures |url| == |AvatarPrefix| + |username|
    ensures url[..|AvatarPrefix|] == AvatarPrefix && url[|AvatarPrefix|..] == username
  {
    AvatarPrefix + username
  }

  /** The username an avatar address was built from, for an address of that form. */
  function AvatarUser(url: string): (username: Option<string>)
    ensures username.Some? <==> |url| >= |AvatarPrefix| && url[..|AvatarPrefix|] == AvatarPrefix
  {
    if |url| >= |AvatarPrefix| && url[..|AvatarPrefix|] == AvatarPrefix then Some(url[|AvatarPrefix|..])
    else None
  }

  /** The address determines the user: distinct users get distinct avatars. */
  lemma AvatarUrlRoundTrip(username: string)
    ensures AvatarUser(AvatarUrl(username)) == Some(username)
  {
  }

  lemma AvatarUrlInjective(u1: string, u2: string)
    requires AvatarUrl(u1) == AvatarUrl(u2)
    ensures u1 == u2
  {
    AvatarUrlRoundTrip(u1);
    AvatarUrlRoundTrip(u2);
  }

  class Dashboard {
    var isOpen: bool
    var username: string
    var navigatedTo: Option<string>

    constructor ()
      ensures !isOpen && username == "" && navigatedTo == None
    {
      isOpen, username, navigatedTo := false, "", None;
    }

    /** The mount effect: without a signed-in user go to the login page,
        otherwise show the stored username. */
    method Mount(store: Session.Store)
      modifies this`username, this`navigatedTo
      ensures Session.SignedInUser(store.items) == None ==>
        navigatedTo == Some(LoginPath) && username == old(username)
      ensures Session.SignedInUser(store.items).Some? ==>
        username == store.items[Session.UsernameKey] && navigatedTo == old(navigatedTo)
    {
      var stored := Session.GetItem(store.items, Session.UsernameKey);
      if stored.None? || stored.value == "" {
        navigatedTo := Some(LoginPath);
      } else {
        username := stored.value;
      }
    }

    /** `handleLogout`: removes `token` and `username`, then goes to the login page. */
    method HandleLogout(store: Session.Store)
      modifies store`items, this`navigatedTo
      ensures store.items == Session.SignedOut(old(store.items))
      ensures navigatedTo == Some(LoginPath)
    {
      store.RemoveItem(Session.TokenKey);
      store.RemoveItem(Session.UsernameKey);
      navigatedTo := Some(LoginPath);
    }

    method ToggleSidebar()
      modifies this`isOpen
      ensures isOpen == !old(isOpen)
    {
      isOpen := !isOpen;
    }

    /** The sidebar opens while the pointer is over it and closes when it leaves. */
    method MouseEnter()
      modifies this`isOpen
      ensures isOpen
    {
      isOpen := true;
    }

    method MouseLeave()
      modifies this`isOpen
      ensures !isOpen
    {
      isOpen := false;
    }
  }
}
