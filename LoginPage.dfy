/**
 * The login page: a six-character captcha drawn from a 62-character alphabet,
 * the captcha gate in front of the login request, the session write on status
 * 200, the role-based landing page, and the reset after a failed login. The
 * random draws are supplied as indices into the alphabet.
 */
module LoginPage {
  import opened Common
  import Session

  const CaptchaLength := 6

  /** The `n` consecutive code points starting at `first`. */
  function CharRun(first: char, n: nat): (r: string)
    requires first as int + n <= 128
    ensures |r| == n && forall i :: 0 <= i < n ==> r[i] == (first as int + i) as char
  {
    seq(n, i requires 0 <= i < n => (first as int + i) as char)
  }

  /** The 62 characters a captcha is drawn from, in the order of the string
      "ABCDEFGHIJKLMNOPQRSTUVWXYZabcdefghijklmnopqrstuvwxyz0123456789". */
  const Alphabet: string := CharRun('A', 26) + CharRun('a', 26) + CharRun('0', 10)

  predicate IsAlphanumeric(c: char)
  {
    ('A' <= c <= 'Z') || ('a' <= c <= 'z') || ('0' <= c <= '9')
  }

  /** The three runs the alphabet is made of, position by position. */
  lemma AlphabetRuns()
    ensures |Alphabet| == 62
    ensures forall i :: 0 <= i < 26 ==> Alphabet[i] == ('A' as int + i) as char
    ensures forall i :: 26 <= i < 52 ==> Alphabet[i] == ('a' as int + i - 26) as char
    ensures forall i :: 52 <= i < 62 ==> Alphabet[i] == ('0' as int + i - 52) as char
  {
    var upper, lower, digits := CharRun('A', 26), CharRun('a', 26), CharRun('0', 10);
    assert Alphabet == upper + lower + digits;
    forall i | 26 <= i < 52 ensures Alphabet[i] == ('a' as int + i - 26) as char {
      assert Alphabet[i] == lower[i - 26];
    }
    forall i | 52 <= i < 62 ensures Alphabet[i] == ('0' as int + i - 52) as char {
      assert Alphabet[i] == digits[i - 52];
    }
  }

  /** The position of an alphanumeric character in the alphabet. */
  function AlphabetIndex(c: char): (i: nat)
    requires IsAlphanumeric(c)
    ensures i < |Alphabet| && Alphabet[i] == c
  {
    AlphabetRuns();
    if 'A' <= c <= 'Z' then c as int - 'A' as int
    else if 'a' <= c <= 'z' then c as int - 'a' as int + 26
    else c as int - '0' as int + 52
  }

  /** The alphabet holds exactly the ASCII letters and digits. */
  lemma AlphabetIsAlphanumerics(c: char)
    ensures c in Alphabet <==> IsAlphanumeric(c)
  {
    if IsAlphanumeric(c) {
      var i := AlphabetIndex(c);
      assert Alphabet[i] == c;
    }
    if c in Alphabet {
      var i :| 0 <= i < |Alphabet| && Alphabet[i] == c;
      AlphabetAt(i);
    }
  }

  /** Each position of the alphabet holds a distinct character: looking it up
      gives the position back. */
  lemma AlphabetAt(i: nat)
    requires i < |Alphabet|
    ensures IsAlphanumeric(Alphabet[i]) && AlphabetIndex(Alphabet[i]) == i
  {
    AlphabetRuns();
  }

  lemma AlphabetAllAlphanumeric()
    ensures forall j :: 0 <= j < |Alphabet| ==> IsAlphanumeric(Alphabet[j])
  {
    forall j | 0 <= j < |Alphabet| ensures IsAlphanumeric(Alphabet[j]) {
      AlphabetAt(j);
    }
  }

  /** Draws a random source may supply: six indices into the alphabet. */
  predicate ValidDraws(draws: seq<nat>)
  {
    |draws| == CaptchaLength && forall i :: 0 <= i < |draws| ==> draws[i] < |Alphabet|
  }

  /** The challenge the draws select, one alphabet character per draw. */
  function CaptchaOf(draws: seq<nat>): (text: string)
    requires forall i :: 0 <= i < |draws| ==> draws[i] < |Alphabet|
    ensures |text| == |draws|
    ensures forall i :: 0 <= i < |text| ==> IsAlphanumeric(text[i]) && text[i] == Alphabet[draws[i]]
  {
    AlphabetAllAlphanumeric();
    seq(|draws|, i requires 0 <= i < |draws| => Alphabet[draws[i]])
  }

  /** The draws that select a given challenge. */
  function DrawsOf(text: string): (draws: seq<nat>)
    requires forall i :: 0 <= i < |text| ==> IsAlphanumeric(text[i])
    ensures |draws| == |text| && forall i :: 0 <= i < |draws| ==> draws[i] < |Alphabet|
    ensures CaptchaOf(draws) == text
  {
    seq(|text|, i requires 0 <= i < |text| => AlphabetIndex(text[i]))
  }

  /** The draws a challenge came from are the ones `DrawsOf` recovers: different
      draws give different challenges. */
  lemma {:induction false} CaptchaDrawsRecovered(draws: seq<nat>)
    requires ValidDraws(draws)
    ensures DrawsOf(CaptchaOf(draws)) == draws
  {
    var text := CaptchaOf(draws);
    forall i | 0 <= i < |draws| ensures DrawsOf(text)[i] == draws[i] {
      AlphabetAt(draws[i]);
    }
  }

  lemma CaptchaOfInjective(d1: seq<nat>, d2: seq<nat>)
    requires ValidDraws(d1) && ValidDraws(d2) && CaptchaOf(d1) == CaptchaOf(d2)
    ensures d1 == d2
  {
    CaptchaDrawsRecovered(d1);
    CaptchaDrawsRecovered(d2);
  }

  /** `generateCaptcha`: appends one alphabet character per draw. */
  method GenerateCaptcha(draws: seq<nat>) returns (text: string)
    requires ValidDraws(draws)
    ensures text == CaptchaOf(draws)
    ensures |text| == CaptchaLength && forall i :: 0 <= i < |text| ==> text[i] in Alphabet
  {
    text := "";
    for i := 0 to CaptchaLength
      invariant |text| == i
      invariant forall j :: 0 <= j < i ==> text[j] == Alphabet[draws[j]]
    {
      text := text + [Alphabet[draws[i]]];
    }
    AlphabetAllAlphanumeric();
  }

  const AdminHome := "/admin-dashboard/admin-home"
  const FacultyHome := "/faculty-dashboard"
  const StudentHome := "/student-dashboard/home"

  /** The page a signed-in user lands on. */
  function RoleHome(role: string): (path: string)
    ensures path == AdminHome <==> role == "admin"
    ensures path == FacultyHome <==> role == "faculty"
    ensures path == StudentHome <==> role != "admin" && role != "faculty"
  {
    assert AdminHome[1] != FacultyHome[1] && AdminHome[1] != StudentHome[1] && FacultyHome[1] != StudentHome[1];
    if role == "admin" then AdminHome
    else if role == "faculty" then FacultyHome
    else StudentHome
  }

  const CaptchaMismatch := "Invalid captcha. Please try again."
  const LoginFailed := "Login failed: Invalid credentials"

  /** What the login request ends in: a response with its status and the `role`
      of its body, or no response at all. */
  datatype LoginResponse = Response(status: int, role: string) | NoResponse

  /** axios resolves for a 2xx status and throws for every other status and for
      a missing response. */
  predicate Resolves(r: LoginResponse)
  {
    r.Response? && 200 <= r.status < 300
  }

  datatype Credentials = Credentials(username: string, password: string)

  class Login {
    var username: string
    var password: string
    var errorMessage: string
    var captchaText: string
    var userCaptcha: string
    var captchaError: string
    var showPassword: bool
    var navigatedTo: Option<string>

    /** The initial state, with the challenge the mount effect generates. */
    constructor (draws: seq<nat>)
      requires ValidDraws(draws)
      ensures username == "" && password == "" && errorMessage == "" && userCaptcha == ""
      ensures captchaError == "" && !showPassword && navigatedTo == None
      ensures captchaText == CaptchaOf(draws)
    {
      username, password, errorMessage, userCaptcha, captchaError := "", "", "", "", "";
      showPassword := false;
      navigatedTo := None;
      captchaText := CaptchaOf(draws);
    }

    method EditUsername(value: string)
      modifies this`username
      ensures username == value
    {
      username := value;
    }

    method EditPassword(value: string)
      modifies this`password
      ensures password == value
    {
      password := value;
    }

    method EditCaptcha(value: string)
      modifies this`userCaptcha
      ensures userCaptcha == value
    {
      userCaptcha := value;
    }

    /** A click on the captcha canvas: a new challenge from `draws`; what the
        user typed and every message stay as they were. */
    method RegenerateCaptcha(draws: seq<nat>)
      requires ValidDraws(draws)
      modifies this`captchaText
      ensures captchaText == CaptchaOf(draws)
      ensures |captchaText| == CaptchaLength && forall i :: 0 <= i < |captchaText| ==> captchaText[i] in Alphabet
    {
      captchaText := GenerateCaptcha(draws);
    }

    /** `handleLogin`: the typed captcha must equal the challenge exactly;
        otherwise no request or storage write happens. `draws` feed the new
        challenge generated after a mismatch or a failed login. */
    method HandleLogin(store: Session.Store, response: LoginResponse, draws: seq<nat>)
      returns (request: Option<Credentials>)
      requires ValidDraws(draws)
      modifies this`errorMessage, this`captchaText, this`userCaptcha, this`captchaError, this`navigatedTo
      modifies store`items
      ensures old(userCaptcha) != old(captchaText) ==>
        request == None && store.items == old(store.items)
        && captchaError == CaptchaMismatch && captchaText == CaptchaOf(draws) && userCaptcha == ""
        && errorMessage == old(errorMessage) && navigatedTo == old(navigatedTo)
      ensures old(userCaptcha) == old(captchaText) ==>
        request == Some(Credentials(username, password)) && captchaError == old(captchaError)
      ensures old(userCaptcha) == old(captchaText) && Resolves(response) && response.status == 200 ==>
        store.items == Session.SignedIn(old(store.items), username, response.role)
        && navigatedTo == Some(RoleHome(response.role))
        && errorMessage == old(errorMessage) && captchaText == old(captchaText) && userCaptcha == old(userCaptcha)
      ensures old(userCaptcha) == old(captchaText) && Resolves(response) && response.status != 200 ==>
        store.items == old(store.items) && navigatedTo == old(navigatedTo)
        && errorMessage == old(errorMessage) && captchaText == old(captchaText) && userCaptcha == old(userCaptcha)
      ensures old(userCaptcha) == old(captchaText) && !Resolves(response) ==>
        store.items == old(store.items) && navigatedTo == old(navigatedTo)
        && errorMessage == LoginFailed && captchaText == CaptchaOf(draws) && userCaptcha == ""
    {
      if userCaptcha != captchaText {
        captchaError := CaptchaMismatch;
        captchaText := GenerateCaptcha(draws);
        userCaptcha := "";
        return None;
      }
      request := Some(Credentials(username, password));
      if Resolves(response) {
        if response.status == 200 {
          store.SetItem(Session.UsernameKey, username);
          store.SetItem(Session.RoleKey, response.role);
          navigatedTo := Some(RoleHome(response.role));
        }
      } else {
        errorMessage := LoginFailed;
        captchaText := GenerateCaptcha(draws);
        userCaptcha := "";
      }
    }

    /** `togglePasswordVisibility`: the flag flips, so two toggles restore it. */
    method TogglePasswordVisibility()
      modifies this`showPassword
      ensures showPassword == !old(showPassword)
    {
      showPassword := !showPassword;
    }
  }
}
