/**
 * The student's home page: the number of courses, the first three courses, and
 * a profile-completeness percentage of 25 per present item plus a base of 25.
 */
module HomePage {
  import opened Common

  /** The profile items the completeness counts; "" stands for a missing value. */
  datatype Profile = Profile(email: string, phoneNumber: string, profilePicture: bool)

  /** The profile the page sets once the courses are fetched. */
  const FetchedProfile := Profile("user@example.com", "1234567890", true)

  /** How many of the three items are present. */
  function PresentItems(p: Profile): (n: nat)
    ensures n <= 3
    ensures n == 0 <==> p.email == "" && p.phoneNumber == "" && !p.profilePicture
    ensures n == 3 <==> p.email != "" && p.phoneNumber != "" && p.profilePicture
  {
    (if p.email != "" then 1 else 0) + (if p.phoneNumber != "" then 1 else 0) + (if p.profilePicture then 1 else 0)
  }

  /** `calculateProfileCompleteness`: the running sum, capped at 100. */
  function ProfileCompleteness(p: Profile): (c: nat)
    ensures c == 25 * (PresentItems(p) + 1)
    ensures c == 25 || c == 50 || c == 75 || c == 100
    ensures c == 100 <==> p.email != "" && p.phoneNumber != "" && p.profilePicture
    ensures c == 25 <==> p.email == "" && p.phoneNumber == "" && !p.profilePicture
  {
    var completeness := (if p.email != "" then 25 else 0) + (if p.phoneNumber != "" then 25 else 0)
      + (if p.profilePicture then 25 else 0) + 25;
    if completeness < 100 then completeness else 100
  }

  /** Each present item only ever adds: `q` has every item `p` has. */
  predicate HasAtLeast(q: Profile, p: Profile)
  {
    (p.email != "" ==> q.email != "") && (p.phoneNumber != "" ==> q.phoneNumber != "")
    && (p.profilePicture ==> q.profilePicture)
  }

  /** Completeness is monotone: adding a present item never lowers it. */
  lemma CompletenessMonotone(p: Profile, q: Profile)
    requires HasAtLeast(q, p)
    ensures ProfileCompleteness(p) <= ProfileCompleteness(q)
  {
  }

  /** The fixed profile is complete. */
  lemma FetchedProfileComplete()
    ensures ProfileCompleteness(FetchedProfile) == 100
  {
  }

  /** `courses.slice(0, 3)`. */
  function Overview<T>(courses: seq<T>): (shown: seq<T>)
    ensures |shown| == if |courses| < 3 then |courses| else 3
    ensures forall i :: 0 <= i < |shown| ==> shown[i] == courses[i]
  {
    if |courses| < 3 then courses else courses[..3]
  }

  /** What the page renders: nothing but the loading text until the profile is
      set, then the course count, the completeness label and the overview. */
  datatype View<T> = LoadingView | HomeView(totalCourses: nat, completeness: string, overview: seq<T>)

  function Render<T>(courses: seq<T>, userData: Option<Profile>): (v: View<T>)
    ensures v.LoadingView? <==> userData.None?
    ensures userData.Some? ==>
      v.totalCourses == |courses| && v.overview == Overview(courses)
      && v.completeness == NatToString(ProfileCompleteness(userData.value)) + "%"
  {
    match userData
    case None => LoadingView
    case Some(p) => HomeView(|courses|, NatToString(ProfileCompleteness(p)) + "%", Overview(courses))
  }

  /** The state the mount effect leaves from the initial `([], null)`: fetched
      courses and the fixed profile, or the initial state after a failure. */
  function AfterFetch<T>(outcome: Outcome<seq<T>>): (state: (seq<T>, Option<Profile>))
    ensures outcome.Ok? ==> state == (outcome.data, Some(FetchedProfile))
    ensures !outcome.Ok? ==> state == ([], None)
  {
    if outcome.Ok? then (outcome.data, Some(FetchedProfile)) else ([], None)
  }

  /** A failed fetch leaves the page loading; a successful one shows the courses
      and "100%". */
  lemma FetchThenRender<T>(outcome: Outcome<seq<T>>)
    ensures !outcome.Ok? ==> Render(AfterFetch(outcome).0, AfterFetch(outcome).1) == LoadingView
    ensures outcome.Ok? ==>
      Render(AfterFetch(outcome).0, AfterFetch(outcome).1)
        == HomeView(|outcome.data|, "100%", Overview(outcome.data))
  {
    FetchedProfileComplete();
    if outcome.Ok? {
      assert NatToString(100) == "100";
    }
  }
}
