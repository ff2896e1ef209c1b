/**
 * The admin dashboard's shell: the session gate and profile-picture fetch run
 * when it mounts, logout, the sidebar, and navigation to the admin pages with
 * the active menu item derived from the current path.
 */
module AdminDashboard {
  import opened Common
  import Session

  const LoginPath := "/login"
  const DashboardPrefix := "/admin-dashboard/"

  /** The sidebar's seven entries, in menu order. */
  const MenuPaths: seq<string> := ["admin-home", "admin-feedback-form", "course-feedback",
    "course-feedback-analytics", "faculty-feedback-analytics", "general-feedback", "admin-settings"]

  /** `handleNavigation`'s target for a menu path. */
  function AdminPath(path: string): (r: string)
    ensures |r| == |DashboardPrefix| + |path| && r[..|DashboardPrefix|] == DashboardPrefix
    ensures r[|DashboardPrefix|..] == path
  {
    DashboardPrefix + path
  }

  /** A menu item is highlighted when the current location is exactly its page. */
  predicate IsActive(pathname: string, path: string)
  {
    pathname == AdminPath(path)
  }

  /** After navigating to `p`, the item for `q` is highlighted exactly when `q` is `p`. */
  lemma ActiveAfterNavigation(p: string, q: string)
    ensures IsActive(AdminPath(p), q) <==> p == q
  {
    if IsActive(AdminPath(p), q) {
      assert AdminPath(p)[|DashboardPrefix|..] == AdminPath(q)[|DashboardPrefix|..];
    }
  }

  /** The menu paths are distinct, so navigating through the menu highlights exactly one item. */
  lemma OneActiveMenuItem(i: nat, j: nat)
    requires i < |MenuPaths| && j < |MenuPaths|
    ensures IsActive(AdminPath(MenuPaths[i]), MenuPaths[j]) <==> i == j
  {
    ActiveAfterNavigation(MenuPaths[i], MenuPaths[j]);
    if i != j {
      // the seven paths have seven different lengths
      assert |MenuPaths[i]| != |MenuPaths[j]|;
    }
  }

  /** The header picture: the bundled default icon or an object URL for the fetched image. */
  datatype Picture = DefaultIcon | ImageUrl(blob: seq<bv8>)

  /** `fetchProfilePicture`'s verdict: a non-empty image, else the default. */
  function PictureAfterFetch(outcome: Outcome<seq<bv8>>): (p: Picture)
    ensures p.ImageUrl? <==> outcome.Ok? && |outcome.data| > 0
    ensures p.ImageUrl? ==> p.blob == outcome.data
  {
    match outcome
    case Ok(blob) => if |blob| > 0 then ImageUrl(blob) else DefaultIcon
    case ServerError(_) => DefaultIcon
    case NetworkError => DefaultIcon
  }

  class Dashboard {
    var isOpen: bool
    var username: string
    var profilePicture: Picture
    var navigatedTo: Option<string>

    constructor ()
      ensures !isOpen && username == "" && profilePicture == DefaultIcon && navigatedTo == None
    {
      isOpen, username, profilePicture, navigatedTo := false, "", DefaultIcon, None;
    }

    /** The mount effect: without a signed-in user go to the login page and fetch
        nothing; otherwise show the user and fetch their picture, whose request
        ends in `outcome`. */
    method Mount(store: Session.Store, outcome: Outcome<seq<bv8>>) returns (pictureRequest: Option<string>)
      modifies this`username, this`navigatedTo, this`profilePicture
      ensures Session.SignedInUser(store.items) == None ==>
        pictureRequest == None && navigatedTo == Some(LoginPath)
        && username == old(username) && profilePicture == old(profilePicture)
      ensures Session.SignedInUser(store.items).Some? ==>
        pictureRequest == Some(store.items[Session.UsernameKey]) && username == store.items[Session.UsernameKey]
        && profilePicture == PictureAfterFetch(outcome) && navigatedTo == old(navigatedTo)
    {
      var stored := Session.GetItem(store.items, Session.UsernameKey);
      if stored.None? || stored.value == "" {
        navigatedTo := Some(LoginPath);
        return None;
      }
      username := stored.value;
      pictureRequest := Some(stored.value);
      FetchProfilePicture(outcome);
    }

    method FetchProfilePicture(outcome: Outcome<seq<bv8>>)
      modifies this`profilePicture
      ensures profilePicture == PictureAfterFetch(outcome)
    {
      match outcome {
        case Ok(blob) =>
          if |blob| > 0 {
            profilePicture := ImageUrl(blob);
          } else {
            profilePicture := DefaultIcon;
          }
        case ServerError(_) =>
          profilePicture := DefaultIcon;
        case NetworkError =>
          profilePicture := DefaultIcon;
      }
    }

    /** `handleLogout`: removes `token` and `username`, then goes to the login page. */
    method HandleLogout(store: Session.Store)
      modifies store`items, this`navigatedTo
      ensures store.items == Session.SignedOut(old(store.items))
      ensures navigatedTo == Some(LoginPath)
    {
      store.RemoveItem(Session.TokenKey);
      store.RemoveItem(Session.UsernameKey);
      navigatedTo := Some(LoginPath);
    }

    method HandleNavigation(path: string)
      modifies this`navigatedTo
      ensures navigatedTo == Some(AdminPath(path))
    {
      navigatedTo := Some(DashboardPrefix + path);
    }

    method ToggleSidebar()
      modifies this`isOpen
      ensures isOpen == !old(isOpen)
    {
      isOpen := !isOpen;
    }

    method MouseEnter()
      modifies this`isOpen
      ensures isOpen
    {
      isOpen := true;
    }

    method MouseLeave()
      modifies this`isOpen
      ensures !isOpen
    {
      isOpen := false;
    }
  }
}
