/**
 * The registration page: five field validators (first failure wins, except the
 * password validator, which lists every rule the password breaks), the
 * touched-gated re-validation on every keystroke, and `handleRegister`, which
 * blocks the request while any validator complains and maps the backend's
 * field-keyed error object back onto the fields.
 */
module SignupPage {
  import opened Common

  const UsernameBlank := "Username cannot be blank"
  const UsernameLength := "Username must be between 4 and 20 characters"
  const UsernameCharset := "Username can only contain letters, numbers, underscores, and hyphens"
  const EmailBlank := "Email cannot be blank"
  const EmailInvalid := "Please provide a valid email address"
  const EmailTooLong := "Email must be less than 100 characters"
  const PhoneBlank := "Phone number cannot be blank"
  const PhoneInvalid := "Phone number must be 10 digits"
  const PasswordBlank := "Password cannot be blank"
  const RetypeMismatch := "Passwords do not match"

  /** The five password rules' messages, in the order the validator checks them. */
  const PasswordRuleMessages: seq<string> := [
    "Must be between 8 and 64 characters",
    "Must contain an uppercase letter",
    "Must contain a lowercase letter",
    "Must contain a number",
    "Must contain a special character"
  ]


  // ---------------------------------------------------------------------------
  // Username: `[a-zA-Z0-9_-]+`, 4 to 20 characters

  predicate IsUsernameChar(c: char)
  {
    ('A' <= c <= 'Z') || ('a' <= c <= 'z') || ('0' <= c <= '9') || c == '_' || c == '-'
  }

  predicate UsernameChars(v: string)
  {
    |v| > 0 && forall i :: 0 <= i < |v| ==> IsUsernameChar(v[i])
  }

  function ValidateUsername(v: string): (e: string)
    ensures e == "" <==> 4 <= |v| <= 20 && UsernameChars(v)
    ensures e == "" || e == UsernameBlank || e == UsernameLength || e == UsernameCharset
  {
    if v == "" then UsernameBlank
    else if |v| < 4 || |v| > 20 then UsernameLength
    else if !UsernameChars(v) then UsernameCharset
    else ""
  }

  /** The checks run in the order blank, length, character set: each message is
      produced exactly when its check is the first one to fail. */
  lemma UsernameFirstFailure(v: string)
    ensures ValidateUsername(v) == UsernameBlank <==> v == ""
    ensures ValidateUsername(v) == UsernameLength <==> v != "" && !(4 <= |v| <= 20)
    ensures ValidateUsername(v) == UsernameCharset <==> 4 <= |v| <= 20 && !UsernameChars(v)
  {
    assert |UsernameBlank| != |UsernameLength| && |UsernameBlank| != |UsernameCharset| && |UsernameLength| != |UsernameCharset|;
  }

  lemma UsernameScenarios()
    ensures ValidateUsername("abc") == UsernameLength
    ensures ValidateUsername("abcd") == ""
    ensures ValidateUsername("ab cd") == UsernameCharset
  {
    assert !IsUsernameChar("ab cd"[2]);
  }

  // ---------------------------------------------------------------------------
  // Email: the pattern `^[^\s@]+@[^\s@]+\.[^\s@]+$`

  predicate IsEmailChar(c: char)
  {
    !IsWhitespace(c) && c != '@'
  }

  /** `[^\s@]+`: a non-empty run of characters that are neither white space nor '@'. */
  predicate EmailRun(s: string)
  {
    |s| > 0 && forall i :: 0 <= i < |s| ==> IsEmailChar(s[i])
  }

  /** The pattern as written: a run, '@', a run, '.', a run. */
  ghost predicate EmailPattern(s: string)
  {
    exists a, b :: 0 <= a < b < |s| && s[a] == '@' && s[b] == '.'
      && EmailRun(s[..a]) && EmailRun(s[a + 1..b]) && EmailRun(s[b + 1..])
  }

  /** A '.' that is neither the first nor the last character of `d`. */
  predicate InteriorDot(d: string)
  {
    exists j :: 0 < j < |d| - 1 && d[j] == '.'
  }

  /** What the pattern means: no white space, exactly one '@', not in front, and a
      domain after it holding an interior '.'. */
  predicate EmailShaped(s: string)
  {
    && (forall k :: 0 <= k < |s| ==> !IsWhitespace(s[k]))
    && (exists a :: 0 < a < |s| && s[a] == '@' && OnlyAt(s, a) && InteriorDot(s[a + 1..]))
  }

  /** Position `a` holds the only '@' of `s`. */
  predicate OnlyAt(s: string, a: int)
  {
    forall k :: 0 <= k < |s| && k != a ==> s[k] != '@'
  }

  lemma EmailPatternIsShape(s: string)
    ensures EmailPattern(s) <==> EmailShaped(s)
  {
    if EmailPattern(s) {
      EmailPatternImpliesShape(s);
    }
    if EmailShaped(s) {
      EmailShapeImpliesPattern(s);
    }
  }

  lemma EmailPatternImpliesShape(s: string)
    requires EmailPattern(s)
    ensures EmailShaped(s)
  {
    var a, b :| 0 <= a < b < |s| && s[a] == '@' && s[b] == '.'
      && EmailRun(s[..a]) && EmailRun(s[a + 1..b]) && EmailRun(s[b + 1..]);
    PatternChars(s, a, b);
    var d := s[a + 1..];
    assert d[b - a - 1] == '.';
    ShapeAt(s, a);
  }

  /** Outside the '@' at `a`, a matching string holds only e-mail characters. */
  lemma PatternChars(s: string, a: int, b: int)
    requires 0 <= a < b < |s| && s[b] == '.'
    requires EmailRun(s[..a]) && EmailRun(s[a + 1..b]) && EmailRun(s[b + 1..])
    ensures EmailCharsBut(s, a)
  {
    forall k | 0 <= k < |s| && k != a
      ensures IsEmailChar(s[k])
    {
      if k < a {
        EmailRunAt(s, 0, a, k);
      } else if k < b {
        EmailRunAt(s, a + 1, b, k);
      } else if b < k {
        EmailRunAt(s, b + 1, |s|, k);
      }
    }
  }

  /** The shape holds with its only '@' at `a`. */
  lemma ShapeAt(s: string, a: int)
    requires 0 < a < |s| && s[a] == '@' && EmailCharsBut(s, a) && InteriorDot(s[a + 1..])
    ensures EmailShaped(s)
  {
    assert forall k :: 0 <= k < |s| ==> !IsWhitespace(s[k]);
    assert OnlyAt(s, a);
  }

  /** Every character of a run inside `s` is an e-mail character. */
  lemma EmailRunAt(s: string, lo: int, hi: int, k: int)
    requires 0 <= lo <= k < hi <= |s| && EmailRun(s[lo..hi])
    ensures IsEmailChar(s[k])
  {
    assert s[k] == s[lo..hi][k - lo];
  }

  /** Every character of `s` but the one at `a` is an e-mail character. */
  predicate EmailCharsBut(s: string, a: int)
  {
    forall k :: 0 <= k < |s| && k != a ==> IsEmailChar(s[k])
  }

  /** The characters in front of the only '@' form a run. */
  lemma RunBefore(s: string, a: int)
    requires 0 < a < |s| && EmailCharsBut(s, a)
    ensures EmailRun(s[..a])
  {
    var r := s[..a];
    forall i | 0 <= i < |r| ensures IsEmailChar(r[i]) {
      assert r[i] == s[i];
    }
  }

  /** The characters strictly between the '@' at `a` and the '.' at `b` form a run. */
  lemma RunBetween(s: string, a: int, b: int)
    requires 0 <= a && a + 1 < b < |s| && EmailCharsBut(s, a)
    ensures EmailRun(s[a + 1..b])
  {
    var r := s[a + 1..b];
    forall i | 0 <= i < |r| ensures IsEmailChar(r[i]) {
      assert r[i] == s[a + 1 + i];
    }
  }

  /** The characters after the '.' at `b`, past the '@' at `a`, form a run. */
  lemma RunAfter(s: string, a: int, b: int)
    requires 0 <= a < b && b + 1 < |s| && EmailCharsBut(s, a)
    ensures EmailRun(s[b + 1..])
  {
    var r := s[b + 1..];
    forall i | 0 <= i < |r| ensures IsEmailChar(r[i]) {
      assert r[i] == s[b + 1 + i];
    }
  }

  lemma EmailShapeImpliesPattern(s: string)
    requires EmailShaped(s)
    ensures EmailPattern(s)
  {
    var a :| 0 < a < |s| && s[a] == '@' && OnlyAt(s, a) && InteriorDot(s[a + 1..]);
    var d := s[a + 1..];
    var j :| 0 < j < |d| - 1 && d[j] == '.';
    var b := a + 1 + j;
    assert s[b] == '.';
    assert EmailCharsBut(s, a);
    RunBefore(s, a);
    RunBetween(s, a, b);
    RunAfter(s, a, b);
    PatternAt(s, a, b);
  }

  /** The pattern matches with its '@' at `a` and its '.' at `b`. */
  lemma PatternAt(s: string, a: int, b: int)
    requires 0 <= a < b < |s| && s[a] == '@' && s[b] == '.'
    requires EmailRun(s[..a]) && EmailRun(s[a + 1..b]) && EmailRun(s[b + 1..])
    ensures EmailPattern(s)
  {
  }

  /** The shape check runs before the length check, so a well-shaped address that
      is too long gets the length message. */
  function ValidateEmail(v: string): (e: string)
    ensures e == "" <==> EmailShaped(v) && |v| <= 100
    ensures EmailShaped(v) && |v| > 100 ==> e == EmailTooLong
    ensures v != "" && !EmailShaped(v) ==> e == EmailInvalid
    ensures v == "" ==> e == EmailBlank
  {
    if v == "" then EmailBlank
    else if !EmailShaped(v) then EmailInvalid
    else if |v| > 100 then EmailTooLong
    else ""
  }

  /** The validator accepts exactly what the regular expression matches, up to 100 characters. */
  lemma ValidateEmailMatchesPattern(v: string)
    ensures ValidateEmail(v) == "" <==> EmailPattern(v) && |v| <= 100
  {
    EmailPatternIsShape(v);
  }

  lemma EmailScenarios()
    ensures EmailShaped("a@b.c")
    ensures !EmailShaped("a@b.")
    ensures !EmailShaped("@b.c")
  {
    var s := "a@b.c";
    assert s[1] == '@' && s[3] == '.';
    assert OnlyAt(s, 1);
    assert s[2..][1] == '.';
    var t := "a@b.";
    forall a | 0 < a < |t| && t[a] == '@' ensures !InteriorDot(t[a + 1..]) {
      assert a == 1;
      assert t[2..] == "b.";
    }
  }

  // ---------------------------------------------------------------------------
  // Phone number: the pattern `^\+?[0-9]{10,14}$`

  /** An optional single '+' followed by 10 to 14 ASCII digits. */
  predicate PhonePattern(s: string)
  {
    (AllDigits(s) && 10 <= |s| <= 14)
    || (|s| > 0 && s[0] == '+' && AllDigits(s[1..]) && 10 <= |s| - 1 <= 14)
  }

  function ValidatePhoneNumber(v: string): (e: string)
    ensures e == "" <==> PhonePattern(v)
    ensures v != "" && !PhonePattern(v) ==> e == PhoneInvalid
    ensures v == "" ==> e == PhoneBlank
  {
    if v == "" then PhoneBlank
    else if !PhonePattern(v) then PhoneInvalid
    else ""
  }

  /** An accepted number has 10 to 15 characters, all digits except a possible
      leading '+'; a second '+' anywhere is rejected. */
  lemma PhonePatternShape(s: string)
    requires PhonePattern(s)
    ensures 10 <= |s| <= 15
    ensures forall i :: 0 < i < |s| ==> IsDigit(s[i])
    ensures IsDigit(s[0]) || s[0] == '+'
  {
    if !(AllDigits(s) && 10 <= |s| <= 14) {
      forall i | 0 < i < |s| ensures IsDigit(s[i]) {
        assert s[i] == s[1..][i - 1];
      }
    }
  }

  // ---------------------------------------------------------------------------
  // Password: five rules, every violation reported, in rule order

  predicate HasUppercase(v: string)
  {
    exists i :: 0 <= i < |v| && 'A' <= v[i] <= 'Z'
  }

  predicate HasLowercase(v: string)
  {
    exists i :: 0 <= i < |v| && 'a' <= v[i] <= 'z'
  }

  predicate HasDigit(v: string)
  {
    exists i :: 0 <= i < |v| && IsDigit(v[i])
  }

  /** The special-character class of the password rule: ! @ # $ % ^ & * ( ) _ + - = [ ] { } ; " ' : , . < > / ? */
  predicate IsSpecial(c: char)
  {
    c == '!' || c == '@' || c == '#' || c == '$' || c == '%' || c == '^' || c == '&' || c == '*'
    || c == '(' || c == ')' || c == '_' || c == '+' || c == '-' || c == '=' || c == '[' || c == ']'
    || c == '{' || c == '}' || c == ';' || c == '"' || c == '\'' || c == ':' || c == ',' || c == '.'
    || c == '<' || c == '>' || c == '/' || c == '?'
  }

  predicate HasSpecial(v: string)
  {
    exists i :: 0 <= i < |v| && IsSpecial(v[i])
  }

  /** Rule `k` of the five, numbered in the order the validator checks them. */
  predicate RuleHolds(k: nat, v: string)
    requires k < 5
  {
    if k == 0 then 8 <= |v| <= 64
    else if k == 1 then HasUppercase(v)
    else if k == 2 then HasLowercase(v)
    else if k == 3 then HasDigit(v)
    else HasSpecial(v)
  }

  predicate StrictlyIncreasing(r: seq<nat>)
  {
    forall i, j :: 0 <= i < j < |r| ==> r[i] < r[j]
  }

  /** The numbers of the rules `v` breaks, each once, in checking order. */
  function ViolatedRules(v: string): (r: seq<nat>)
    ensures StrictlyIncreasing(r)
    ensures forall k :: k in r <==> k < 5 && !RuleHolds(k, v)
  {
    ViolatedFrom(0, v)
  }

  /** The broken rules among rules `k` to 4. */
  function ViolatedFrom(k: nat, v: string): (r: seq<nat>)
    requires k <= 5
    decreases 5 - k
    ensures forall i :: 0 <= i < |r| ==> k <= r[i] < 5
    ensures StrictlyIncreasing(r)
    ensures forall j :: j in r <==> k <= j < 5 && !RuleHolds(j, v)
  {
    if k == 5 then []
    else
      var rest := ViolatedFrom(k + 1, v);
      if RuleHolds(k, v) then rest
      else
        PrependIncreasing(k, rest);
        [k] + rest
  }

  /** A number below every element stays strictly increasing in front of them. */
  lemma PrependIncreasing(k: nat, rest: seq<nat>)
    requires StrictlyIncreasing(rest) && forall i :: 0 <= i < |rest| ==> k < rest[i]
    ensures StrictlyIncreasing([k] + rest)
    ensures forall j :: j in [k] + rest <==> j == k || j in rest
  {
    var r := [k] + rest;
    assert forall i :: 0 < i < |r| ==> r[i] == rest[i - 1];
  }

  function RuleMessages(r: seq<nat>): (m: seq<string>)
    requires forall i :: 0 <= i < |r| ==> r[i] < 5
    ensures |m| == |r| && forall i :: 0 <= i < |r| ==> m[i] == PasswordRuleMessages[r[i]]
  {
    seq(|r|, i requires 0 <= i < |r| => PasswordRuleMessages[r[i]])
  }

  /** A validator's verdict on one field: a message ("" for none) or, for the
      password, the list of broken rules. */
  datatype FieldError = Text(message: string) | Messages(items: seq<string>)

  const NoError := Text("")

  function ValidatePassword(v: string): (e: FieldError)
    ensures e == NoError <==> v != "" && forall k :: 0 <= k < 5 ==> RuleHolds(k, v)
    ensures v == "" ==> e == Text(PasswordBlank)
    ensures v != "" && ViolatedRules(v) != [] ==> e == Messages(RuleMessages(ViolatedRules(v)))
  {
    if v == "" then Text(PasswordBlank)
    else
      var broken := ViolatedRules(v);
      NoViolations(v);
      BrokenRulesInRange(v);
      if |broken| > 0 then Messages(RuleMessages(broken)) else NoError
  }

  lemma BrokenRulesInRange(v: string)
    ensures forall i :: 0 <= i < |ViolatedRules(v)| ==> ViolatedRules(v)[i] < 5
  {
    var r := ViolatedRules(v);
    forall i | 0 <= i < |r| ensures r[i] < 5 {
      assert r[i] in r;
    }
  }

  lemma NoViolations(v: string)
    ensures ViolatedRules(v) == [] <==> forall k :: 0 <= k < 5 ==> RuleHolds(k, v)
  {
    var r := ViolatedRules(v);
    if r != [] {
      assert r[0] in r;
    }
  }

  /** Without an uppercase letter, the list names the uppercase rule whatever the
      other rules say. */
  lemma MissingUppercaseIsReported(v: string)
    requires v != "" && !HasUppercase(v)
    ensures ValidatePassword(v).Messages? && PasswordRuleMessages[1] in ValidatePassword(v).items
  {
    var r := ViolatedRules(v);
    assert 1 in r;
    var i :| 0 <= i < |r| && r[i] == 1;
    assert RuleMessages(r)[i] == PasswordRuleMessages[1];
  }

  lemma AcceptedPasswordScenario()
    ensures ValidatePassword("Abcdef1!") == NoError
  {
    var good := "Abcdef1!";
    assert 'A' <= good[0] <= 'Z' && 'a' <= good[1] <= 'z' && IsDigit(good[6]) && IsSpecial(good[7]);
    assert forall k :: 0 <= k < 5 ==> RuleHolds(k, good);
  }

  /** A password of lowercase letters only breaks the uppercase, digit and special rules. */
  lemma LowercaseOnlyPassword(v: string)
    requires 8 <= |v| <= 64 && forall i :: 0 <= i < |v| ==> 'a' <= v[i] <= 'z'
    ensures ValidatePassword(v)
      == Messages([PasswordRuleMessages[1], PasswordRuleMessages[3], PasswordRuleMessages[4]])
  {
    LowercaseOnlyRules(v);
    assert RuleMessages([1, 3, 4]) == [PasswordRuleMessages[1], PasswordRuleMessages[3], PasswordRuleMessages[4]];
  }

  lemma LowercaseOnlyRules(v: string)
    requires 8 <= |v| <= 64 && forall i :: 0 <= i < |v| ==> 'a' <= v[i] <= 'z'
    ensures ViolatedRules(v) == [1, 3, 4]
  {
    assert 'a' <= v[0] <= 'z';
    assert RuleHolds(0, v) && RuleHolds(2, v);
    assert !HasUppercase(v) && !HasDigit(v) && !HasSpecial(v);
    assert ViolatedFrom(4, v) == [4];
    assert ViolatedFrom(3, v) == [3, 4];
    assert ViolatedFrom(2, v) == [3, 4];
    assert ViolatedFrom(1, v) == [1, 3, 4];
  }

  lemma RejectedPasswordScenario()
    ensures ValidatePassword("abcdefgh")
      == Messages([PasswordRuleMessages[1], PasswordRuleMessages[3], PasswordRuleMessages[4]])
  {
    var v := "abcdefgh";
    forall i | 0 <= i < |v| ensures 'a' <= v[i] <= 'z' {
      if i == 0 {} else if i == 1 {} else if i == 2 {} else if i == 3 {}
      else if i == 4 {} else if i == 5 {} else if i == 6 {} else {}
    }
    LowercaseOnlyPassword(v);
  }

  // ---------------------------------------------------------------------------
  // Retype password

  function ValidateRetypePassword(value: string, password: string): (e: string)
    ensures e == "" <==> value == password
    ensures e != "" ==> e == RetypeMismatch
  {
    if value != password then RetypeMismatch else ""
  }

  // ---------------------------------------------------------------------------
  // The error map and handleRegister

  datatype Field = Username | Email | PhoneNumber | Password | RetypePassword

  /** The order `handleRegister` fills the error object in, hence the order of `Object.keys`. */
  const FieldOrder: seq<Field> := [Username, Email, PhoneNumber, Password, RetypePassword]

  lemma FieldOrderIsComplete(f: Field)
    ensures f in FieldOrder
  {
  }

  /** Every validator's verdict on the five current values. */
  function RegisterErrors(username: string, email: string, phoneNumber: string,
                          password: string, retype: string): (errors: map<Field, FieldError>)
    ensures forall i :: 0 <= i < |FieldOrder| ==> FieldOrder[i] in errors
    ensures RetypePassword in errors && errors[RetypePassword] == Text(ValidateRetypePassword(retype, password))
  {
    map[Username := Text(ValidateUsername(username)),
        Email := Text(ValidateEmail(email)),
        PhoneNumber := Text(ValidatePhoneNumber(phoneNumber)),
        Password := ValidatePassword(password),
        RetypePassword := Text(ValidateRetypePassword(retype, password))]
  }

  /** The error object once every "" entry has been deleted. */
  function WithoutEmpty(errors: map<Field, FieldError>): map<Field, FieldError>
  {
    map k | k in errors && errors[k] != NoError :: errors[k]
  }

  /** The `forEach` that deletes the keys whose value is "". */
  method DeleteEmptyEntries(errors: map<Field, FieldError>) returns (kept: map<Field, FieldError>)
    ensures kept == WithoutEmpty(errors)
  {
    kept := errors;
    var i := 0;
    while i < |FieldOrder|
      invariant 0 <= i <= |FieldOrder|
      invariant kept.Keys <= errors.Keys
      invariant forall k :: k in kept ==> kept[k] == errors[k]
      invariant forall k :: k in errors && k !in FieldOrder[..i] ==> k in kept
      invariant forall k :: k in FieldOrder[..i] && k in kept ==> kept[k] != NoError
      invariant forall k :: k in errors && errors[k] != NoError ==> k in kept
    {
      var key := FieldOrder[i];
      if key in kept && kept[key] == NoError {
        kept := kept - {key};
      }
      assert FieldOrder[..i + 1] == FieldOrder[..i] + [key];
      i := i + 1;
    }
    forall k | k in kept ensures kept[k] != NoError {
      FieldOrderIsComplete(k);
      assert FieldOrder[..i] == FieldOrder;
    }
  }

  /** A five-field error map is emptied by the clean-up exactly when every
      entry is the empty message. */
  lemma CleanedFiveEmpty(u: FieldError, e: FieldError, p: FieldError, w: FieldError, r: FieldError)
    ensures WithoutEmpty(map[Username := u, Email := e, PhoneNumber := p, Password := w, RetypePassword := r]) == map[]
        <==> (u == NoError && e == NoError && p == NoError && w == NoError && r == NoError)
  {
    var kept := WithoutEmpty(map[Username := u, Email := e, PhoneNumber := p, Password := w, RetypePassword := r]);
    if kept == map[] {
      assert Username !in kept && Email !in kept && PhoneNumber !in kept;
      assert Password !in kept && RetypePassword !in kept;
    }
  }

  /** Registration goes ahead exactly when all five validators are silent. */
  lemma RegisterGate(username: string, email: string, phoneNumber: string, password: string, retype: string)
    ensures WithoutEmpty(RegisterErrors(username, email, phoneNumber, password, retype)) == map[]
        <==> (ValidateUsername(username) == "" && ValidateEmail(email) == ""
              && ValidatePhoneNumber(phoneNumber) == "" && ValidatePassword(password) == NoError
              && ValidateRetypePassword(retype, password) == "")
  {
    CleanedFiveEmpty(Text(ValidateUsername(username)), Text(ValidateEmail(email)),
                     Text(ValidatePhoneNumber(phoneNumber)), ValidatePassword(password),
                     Text(ValidateRetypePassword(retype, password)));
  }

  /** The key the backend uses for a field in its error object. */
  function ServerKey(f: Field): string
  {
    match f
    case Username => "username"
    case Email => "email"
    case PhoneNumber => "phoneNumber"
    case Password => "password"
    case RetypePassword => "retypePassword"
  }

  /** The body of an error response: a field-keyed object, something that is not
      an object (a string), or `null`. */
  datatype ErrorBody = FieldMessages(fields: map<string, string>) | PlainText(text: string) | NullBody

  /** The entries copied from the backend's error object: username, email,
      phoneNumber and password when present and not empty, never retypePassword. */
  function MapBackendErrors(fields: map<string, string>): (r: map<Field, FieldError>)
    ensures RetypePassword !in r
    ensures forall f :: f != RetypePassword ==>
      (f in r <==> ServerKey(f) in fields && fields[ServerKey(f)] != "")
    ensures forall f :: f in r ==> r[f] == Text(fields[ServerKey(f)])
  {
    var copied := set f | f in {Username, Email, PhoneNumber, Password}
      && ServerKey(f) in fields && fields[ServerKey(f)] != "";
    map f | f in copied :: Text(fields[ServerKey(f)])
  }

  datatype SignupOutcome = Registered | Rejected(body: ErrorBody) | NoResponse

  /** The request body of the signup call. */
  datatype NewUser = NewUser(username: string, email: string, phoneNumber: string, password: string)

  const RegistrationFailed := "Registration failed"

  // ---------------------------------------------------------------------------
  // The password keystroke and its stale retype check

  /** The error map a password keystroke leaves, as `handlePasswordChange` is
      written: the retype check compares against `previous`, the password of the
      render the handler was created in, not the value just typed. */
  function PasswordChangeErrorsAsWritten(errors: map<Field, FieldError>, touched: set<Field>,
                                         previous: string, typed: string, retype: string): map<Field, FieldError>
  {
    var e := if Password in touched then errors[Password := ValidatePassword(typed)] else errors;
    if retype != "" && RetypePassword in touched then e[RetypePassword := Text(ValidateRetypePassword(retype, previous))]
    else e
  }

  /** Typing the character that makes the two passwords equal still leaves
      "Passwords do not match" on the retype field. */
  lemma StaleRetypeCheck()
    ensures var after := PasswordChangeErrorsAsWritten(map[], {RetypePassword}, "Secret1", "Secret1!", "Secret1!");
      after[RetypePassword] == Text(RetypeMismatch)
  {
    assert "Secret1!" != "Secret1" by { assert |"Secret1!"| != |"Secret1"|; }
  }

  /** The error map a password keystroke leaves when the retype field is checked
      against the live password, as the page intends. */
  function PasswordChangeErrors(errors: map<Field, FieldError>, touched: set<Field>,
                                typed: string, retype: string): (r: map<Field, FieldError>)
    ensures Password in touched ==> Password in r && r[Password] == ValidatePassword(typed)
    ensures retype != "" && RetypePassword in touched ==>
      RetypePassword in r && (r[RetypePassword] == NoError <==> retype == typed)
    ensures forall f :: f != Password && f != RetypePassword ==> (f in r <==> f in errors)
    ensures forall f :: f in errors && f != Password && f != RetypePassword ==> r[f] == errors[f]
    ensures Password !in touched ==> (Password in r <==> Password in errors)
    ensures Password !in touched && Password in errors ==> r[Password] == errors[Password]
    ensures !(retype != "" && RetypePassword in touched) ==>
      (RetypePassword in r <==> RetypePassword in errors)
    ensures !(retype != "" && RetypePassword in touched) && RetypePassword in errors ==>
      r[RetypePassword] == errors[RetypePassword]
  {
    var e := if Password in touched then errors[Password := ValidatePassword(typed)] else errors;
    if retype != "" && RetypePassword in touched then e[RetypePassword := Text(ValidateRetypePassword(retype, typed))]
    else e
  }

  /** The two differ only in the password the retype field is compared with. */
  lemma AsWrittenAgreesWhenUnchanged(errors: map<Field, FieldError>, touched: set<Field>, typed: string, retype: string)
    ensures PasswordChangeErrorsAsWritten(errors, touched, typed, typed, retype) == PasswordChangeErrors(errors, touched, typed, retype)
  {
  }

  /** The error entry a touched field's keystroke leaves; untouched fields keep theirs. */
  function Revalidated(errors: map<Field, FieldError>, touched: set<Field>, f: Field, verdict: FieldError): (r: map<Field, FieldError>)
    ensures f !in touched ==> r == errors
    ensures f in touched ==> f in r && r[f] == verdict
    ensures forall g :: g != f ==> (g in r <==> g in errors) && (g in errors ==> r[g] == errors[g])
  {
    if f in touched then errors[f := verdict] else errors
  }

  /** The page's state: the five inputs, the messages, the error object and the
      set of fields the user has left at least once. */
  class Signup {
    var username: string
    var email: string
    var phoneNumber: string
    var password: string
    var retypePassword: string
    var errorMessage: string
    var successMessage: string
    var validationErrors: map<Field, FieldError>
    var touched: set<Field>
    var navigatedTo: Option<string>

    constructor ()
      ensures username == "" && email == "" && phoneNumber == "" && password == "" && retypePassword == ""
      ensures errorMessage == "" && successMessage == ""
      ensures validationErrors == map[] && touched == {} && navigatedTo == None
    {
      username, email, phoneNumber, password, retypePassword := "", "", "", "", "";
      errorMessage, successMessage := "", "";
      validationErrors, touched := map[], {};
      navigatedTo := None;
    }

    /** `handleFieldTouch`, run when a field loses focus. */
    method HandleFieldTouch(f: Field)
      modifies this`touched
      ensures touched == old(touched) + {f}
    {
      touched := touched + {f};
    }

    method HandleUsernameChange(value: string)
      modifies this`username, this`validationErrors
      ensures username == value
      ensures validationErrors == Revalidated(old(validationErrors), touched, Username, Text(ValidateUsername(value)))
    {
      username := value;
      if Username in touched {
        validationErrors := validationErrors[Username := Text(ValidateUsername(value))];
      }
    }

    method HandleEmailChange(value: string)
      modifies this`email, this`validationErrors
      ensures email == value
      ensures validationErrors == Revalidated(old(validationErrors), touched, Email, Text(ValidateEmail(value)))
    {
      email := value;
      if Email in touched {
        validationErrors := validationErrors[Email := Text(ValidateEmail(value))];
      }
    }

    method HandlePhoneNumberChange(value: string)
      modifies this`phoneNumber, this`validationErrors
      ensures phoneNumber == value
      ensures validationErrors == Revalidated(old(validationErrors), touched, PhoneNumber, Text(ValidatePhoneNumber(value)))
    {
      phoneNumber := value;
      if PhoneNumber in touched {
        validationErrors := validationErrors[PhoneNumber := Text(ValidatePhoneNumber(value))];
      }
    }

    /** A password keystroke; the retype field, when touched and not empty, is
        checked against the value just typed (see `PasswordChangeErrorsAsWritten`
        for the check as the page performs it). */
    method HandlePasswordChange(value: string)
      modifies this`password, this`validationErrors
      ensures password == value
      ensures validationErrors == PasswordChangeErrors(old(validationErrors), touched, value, retypePassword)
    {
      password := value;
      if Password in touched {
        validationErrors := validationErrors[Password := ValidatePassword(value)];
      }
      if retypePassword != "" && RetypePassword in touched {
        validationErrors := validationErrors[RetypePassword := Text(ValidateRetypePassword(retypePassword, value))];
      }
    }

    method HandleRetypePasswordChange(value: string)
      modifies this`retypePassword, this`validationErrors
      ensures retypePassword == value
      ensures validationErrors == Revalidated(old(validationErrors), touched, RetypePassword,
                                              Text(ValidateRetypePassword(value, password)))
    {
      retypePassword := value;
      if RetypePassword in touched {
        validationErrors := validationErrors[RetypePassword := Text(ValidateRetypePassword(value, password))];
      }
    }

    /** `handleRegister`: validate all five fields; with any complaint replace the
        error object by the complaints and send nothing, otherwise send the new
        user and apply the server's verdict. */
    method HandleRegister(outcome: SignupOutcome) returns (request: Option<NewUser>)
      modifies this`validationErrors, this`errorMessage, this`successMessage, this`navigatedTo
      ensures var errs := WithoutEmpty(RegisterErrors(username, email, phoneNumber, password, retypePassword));
        errs != map[] ==>
          request == None && validationErrors == errs && errorMessage == old(errorMessage)
          && successMessage == old(successMessage) && navigatedTo == old(navigatedTo)
      ensures var errs := WithoutEmpty(RegisterErrors(username, email, phoneNumber, password, retypePassword));
        errs == map[] ==> (request == Some(NewUser(username, email, phoneNumber, password))
          && AppliedResponse(outcome, old(validationErrors), old(errorMessage), old(successMessage), old(navigatedTo)))
    {
      var errors := DeleteEmptyEntries(RegisterErrors(username, email, phoneNumber, password, retypePassword));
      if errors != map[] {
        validationErrors := errors;
        return None;
      }
      request := Some(NewUser(username, email, phoneNumber, password));
      ApplyResponse(outcome);
    }

    /** What the server's verdict leaves, from the given state before it. */
    ghost predicate AppliedResponse(outcome: SignupOutcome, errors0: map<Field, FieldError>, error0: string,
                                    success0: string, nav0: Option<string>)
      reads this
    {
      match outcome
      case Registered =>
        successMessage == "Registration successful!" && errorMessage == "" && navigatedTo == Some("/")
        && validationErrors == errors0
      case Rejected(FieldMessages(fields)) =>
        var mapped := MapBackendErrors(fields);
        successMessage == success0 && navigatedTo == nav0
        && (mapped != map[] ==> validationErrors == mapped && errorMessage == error0)
        && (mapped == map[] ==> validationErrors == errors0 && errorMessage == RegistrationFailed)
      case Rejected(PlainText(_)) =>
        errorMessage == RegistrationFailed && validationErrors == errors0
        && successMessage == success0 && navigatedTo == nav0
      case Rejected(NullBody) =>
        errorMessage == error0 && validationErrors == errors0 && successMessage == success0 && navigatedTo == nav0
      case NoResponse =>
        errorMessage == "No response from server" && validationErrors == errors0
        && successMessage == success0 && navigatedTo == nav0
    }

    method ApplyResponse(outcome: SignupOutcome)
      modifies this`validationErrors, this`errorMessage, this`successMessage, this`navigatedTo
      ensures AppliedResponse(outcome, old(validationErrors), old(errorMessage), old(successMessage), old(navigatedTo))
    {
      match outcome {
        case Registered =>
          successMessage := "Registration successful!";
          errorMessage := "";
          navigatedTo := Some("/");
        case Rejected(body) =>
          match body {
            case NullBody =>
              // reading a property of `null` throws inside the handler: nothing changes
            case PlainText(text) =>
              errorMessage := OrElse(text, RegistrationFailed);
              errorMessage := RegistrationFailed;
            case FieldMessages(fields) =>
              var mapped := MapBackendErrors(fields);
              if mapped != map[] {
                validationErrors := mapped;
              } else {
                errorMessage := RegistrationFailed;
              }
          }
        case NoResponse =>
          errorMessage := "No response from server";
      }
    }
  }
}
