# University feedback front end, modelled in Dafny

This project models the React front end of a university feedback system.
Students sign up, log in behind a captcha, and give feedback on courses,
instructors, campus facilities, the canteen and the hostel. Admins publish
feedback forms, create courses and read aggregated analytics. Both kinds of
user manage their profile on a settings page.

Every component's real work is a REST call. Here a request is abstracted to
the value it ends in: `Outcome<T> = Ok(data) | ServerError(message) |
NetworkError` (module `Common`). A handler that would issue a request takes
that outcome as a parameter. It returns the request it would send, as
`Option<...>`, where `None` means no request. It also returns the alert or
toast it would show. The browser's `localStorage` is a class with one map
field (`Session.Store`). Navigation is a recorded `navigatedTo` field.

There is one Dafny module per source component:
- Components whose handlers update state become a `class`. Each React handler
  is one method, and each method is one atomic transition.
- Pure validators, folds and chart shaping become functions, with lemmas about
  them.
- The captcha generator and the sign-up map clean-up keep the loops of the
  source, with their invariants.

## Model

| member | source | states |
|---|---|---|
| Common.OrElse | src/admincomponents/AdminCourseFeedback.js:160 | `s \|\| fallback` on strings: `s` when it is non-empty, the fallback when it is empty, and so empty exactly when both are |
| Common.FailureText | src/components/SettingsPage.js:141 | `error.response?.data \|\| fallback`: the server's non-empty text, otherwise the fallback (also the fallback for a request without response) |
| Common.Trim | src/components/GeneralFeedbackForm.js:76 | `trim()` is empty exactly when the string is all white space, and otherwise starts and ends with non-white space |
| Common.TrimStart | src/components/GeneralFeedbackForm.js:76 | drops exactly a leading white-space run: the result is a suffix, empty iff the string is all white space, otherwise starting with non-white space |
| Common.TrimEnd | src/components/GeneralFeedbackForm.js:76 | drops exactly a trailing white-space run: the result is a prefix, empty iff the string is all white space, otherwise ending with non-white space |
| Common.NatToStringRoundTrip | src/components/StudentFeedbackForm.js:61 | the decimal rendering of a number denotes that number |
| Common.ParseIntOfNatToString | src/components/StudentFacultyFeedback.js:73 | `parseInt` reads back exactly the number `String(n)` renders |
| Common.ParseIntOfNatToStringThen | src/components/StudentFeedbackForm.js:61 | `parseInt` reads the rendered number back from the front of a string whose remainder starts with a non-digit |
| Common.ParseIntOfDigit | src/components/StudentFacultyFeedback.js:127-131 | `parseInt` of a single dropdown digit is that digit's value |
| Common.ParseIntWithoutDigits | src/components/StudentFacultyFeedback.js:73 | `parseInt` of a string without digits is NaN, so `parseInt(r) \|\| 0` gives 0 |
| Common.ParseInt | src/components/StudentFacultyFeedback.js:63-65 | `parseInt(s)` in base 10: leading white space skipped, then ParseSigned; its behaviour is stated by the ParseInt lemmas above |
| Common.ParseSigned | src/components/StudentFacultyFeedback.js:63-65 | an optional sign then the longest digit run, NaN when that run is empty; stated by ParseIntWithoutDigits and ParseIntOfNatToString |
| Session.GetItem | src/components/StudentDashboard.js:24 | `getItem` gives a value exactly for a stored key, and that value is the stored one |
| Session.SignedInUser | src/components/StudentDashboard.js:24-31 | a user counts as signed in exactly when `username` is stored and non-empty |
| Session.SignInThenRead | src/components/LoginPage.js:46-47 | after the login write, the dashboards see the submitted username and the stored role is the returned one |
| Session.SignOutThenRead | src/components/StudentDashboard.js:33-37 | after logout no user is signed in; `role` and every key other than `token` and `username` keep their values |
| Session.Store.SetItem | src/components/LoginPage.js:46 | the map gains or overwrites exactly one key |
| Session.Store.RemoveItem | src/components/StudentDashboard.js:34-35 | the map loses exactly one key |
| SignupPage.ValidateUsername | src/components/SignupPage.js:20-25 | "" iff the length is 4 to 20 and every character is in `[A-Za-z0-9_-]`; otherwise one of the three messages |
| SignupPage.UsernameFirstFailure | src/components/SignupPage.js:20-25 | each username message appears exactly when its check is the first to fail, in the order blank, length, character set |
| SignupPage.UsernameScenarios | src/components/SignupPage.js:20-25 | "abc" fails on length, "abcd" passes, "ab cd" fails on the character set |
| SignupPage.EmailPatternIsShape | src/components/SignupPage.js:29 | the regex `^[^\s@]+@[^\s@]+\.[^\s@]+$`, written as a split into runs, holds exactly for the shape predicate: one `@`, no white space, a non-empty local part, and a domain with a dot that is neither first nor last |
| SignupPage.EmailPattern | src/components/SignupPage.js:29 | the regex as written: a run, `@`, a run, `.`, a run; EmailPatternIsShape characterises it |
| SignupPage.ValidateEmail | src/components/SignupPage.js:27-32 | "" iff well shaped and at most 100 characters; blank, then shape, then length decide the message, so a well-shaped address over 100 characters gets only the length message |
| SignupPage.ValidateEmailMatchesPattern | src/components/SignupPage.js:27-32 | the e-mail validator passes exactly when the regex matches and the length is at most 100 |
| SignupPage.EmailScenarios | src/components/SignupPage.js:29 | "a@b.c" is well shaped; "a@b." and "@b.c" are not |
| SignupPage.ValidatePhoneNumber | src/components/SignupPage.js:34-38 | "" iff an optional `+` is followed by 10 to 14 ASCII digits; any other non-empty input gets "Phone number must be 10 digits" |
| SignupPage.PhonePatternShape | src/components/SignupPage.js:36 | an accepted phone number has 10 to 15 characters, digits after the first, and a digit or `+` first |
| SignupPage.PhonePattern | src/components/SignupPage.js:36 | `^\+?[0-9]{10,14}$`: an optional `+` then 10 to 14 digits; PhonePatternShape states its consequences |
| SignupPage.ViolatedRules | src/components/SignupPage.js:43-49 | the broken password rules, strictly increasing, and a rule is listed iff it is broken |
| SignupPage.ViolatedFrom | src/components/SignupPage.js:44-49 | the broken rules among rules k to 4, strictly increasing, each listed iff it is broken |
| SignupPage.RuleMessages | src/components/SignupPage.js:44-49 | one message per broken rule, in the same order |
| SignupPage.ValidatePassword | src/components/SignupPage.js:40-52 | no error iff the password is non-empty and keeps all five rules; blank gets its own message; otherwise the list of every broken rule's message in order length, uppercase, lowercase, digit, special |
| SignupPage.NoViolations | src/components/SignupPage.js:51 | the list is empty exactly when all five rules hold |
| SignupPage.MissingUppercaseIsReported | src/components/SignupPage.js:45 | a non-empty password without an uppercase letter always has the uppercase message in its list |
| SignupPage.AcceptedPasswordScenario | src/components/SignupPage.js:40-52 | "Abcdef1!" passes |
| SignupPage.RejectedPasswordScenario | src/components/SignupPage.js:40-52 | "abcdefgh" gets exactly the uppercase, digit and special-character messages |
| SignupPage.LowercaseOnlyPassword | src/components/SignupPage.js:40-52 | any 8 to 64 lowercase letters get exactly those three messages |
| SignupPage.LowercaseOnlyRules | src/components/SignupPage.js:44-49 | 8 to 64 lowercase letters break exactly the uppercase, digit and special-character rules |
| SignupPage.ValidateRetypePassword | src/components/SignupPage.js:54-57 | "" iff the retyped value equals the password exactly, otherwise "Passwords do not match" |
| SignupPage.FieldOrderIsComplete | src/components/SignupPage.js:147-153 | the register error map covers all five fields |
| SignupPage.RegisterErrors | src/components/SignupPage.js:147-153 | the error object has an entry for each of the five fields, and the retype entry checks the retype against the password |
| SignupPage.DeleteEmptyEntries | src/components/SignupPage.js:155-157 | the `forEach` deletion loop leaves exactly the entries whose message is not empty |
| SignupPage.RegisterGate | src/components/SignupPage.js:147-163 | the cleaned error map is empty iff all five validators return "" |
| SignupPage.CleanedFiveEmpty | src/components/SignupPage.js:147-163 | cleaning a five-field error map leaves nothing iff all five verdicts are "" |
| SignupPage.MapBackendErrors | src/components/SignupPage.js:193-201 | only the server's username, email, phoneNumber and password messages are copied into field errors, each under its own field, and only when non-empty |
| SignupPage.StaleRetypeCheck | src/components/SignupPage.js:120-127 | the handler as written still reports a mismatch when the keystroke makes the passwords equal |
| SignupPage.PasswordChangeErrorsAsWritten | src/components/SignupPage.js:120-127 | the handler as written, checking the retype against the password of the previous render; StaleRetypeCheck shows where it goes wrong |
| SignupPage.PasswordChangeErrors | src/components/SignupPage.js:108-128 | a password keystroke re-validates the password only when it was touched, re-checks the retype only when the retype is non-empty and touched, and leaves every other entry as it was |
| SignupPage.AsWrittenAgreesWhenUnchanged | src/components/SignupPage.js:120-127 | the handler as written and the corrected one agree when the password did not change |
| SignupPage.Revalidated | src/components/SignupPage.js:73-79 | a change to an untouched field leaves the error map unchanged; a touched field gets the new verdict, and no other entry changes |
| SignupPage.Signup.constructor | src/components/SignupPage.js:8-16 | every field and message is "", no errors, nothing touched, no navigation |
| SignupPage.Signup.HandleFieldTouch | src/components/SignupPage.js:60-65 | the field joins the touched set |
| SignupPage.Signup.HandleUsernameChange | src/components/SignupPage.js:68-80 | the value is stored and the error map is revalidated for the username |
| SignupPage.Signup.HandleEmailChange | src/components/SignupPage.js:82-93 | the value is stored and the error map is revalidated for the e-mail |
| SignupPage.Signup.HandlePhoneNumberChange | src/components/SignupPage.js:95-106 | the value is stored and the error map is revalidated for the phone number |
| SignupPage.Signup.HandlePasswordChange | src/components/SignupPage.js:108-128 | the value is stored and the errors are those of the corrected password keystroke |
| SignupPage.Signup.HandleRetypePasswordChange | src/components/SignupPage.js:130-141 | the value is stored and the retype is revalidated against the password |
| SignupPage.Signup.HandleRegister | src/components/SignupPage.js:143-220 | with any validation error, the map becomes the non-empty entries and no request is made; otherwise the four fields are sent and the server's verdict is applied |
| SignupPage.Signup.ApplyResponse | src/components/SignupPage.js:173-218 | success sets the message and goes to "/"; field messages from the server replace the errors, and with none copied the message ends as "Registration failed"; a missing response gives "No response from server" |
| LoginPage.AlphabetIsAlphanumerics | src/components/LoginPage.js:18 | the captcha alphabet holds exactly the ASCII letters and digits |
| LoginPage.AlphabetAt | src/components/LoginPage.js:18 | each alphabet position holds a distinct character, and looking it up gives the position back |
| LoginPage.AlphabetRuns | src/components/LoginPage.js:18 | the alphabet is 62 characters long: "A" to "Z", then "a" to "z", then "0" to "9", position by position |
| LoginPage.CaptchaOf | src/components/LoginPage.js:17-24 | the challenge selected by the draws has one character per draw, each the alphabet character at that draw |
| LoginPage.DrawsOf | src/components/LoginPage.js:17-24 | every alphanumeric string is the challenge of some draws |
| LoginPage.CaptchaDrawsRecovered | src/components/LoginPage.js:17-24 | the draws can be recovered from their challenge |
| LoginPage.CaptchaOfInjective | src/components/LoginPage.js:17-24 | different draws give different challenges |
| LoginPage.GenerateCaptcha | src/components/LoginPage.js:17-24 | the loop builds exactly the challenge of the draws: six characters, all in the alphabet |
| LoginPage.RoleHome | src/components/LoginPage.js:49-55 | "admin" goes to /admin-dashboard/admin-home, "faculty" to /faculty-dashboard, and any other role to /student-dashboard/home, each iff |
| LoginPage.Login.constructor | src/components/LoginPage.js:26-28 | the initial state holds the challenge generated on mount |
| LoginPage.Login.EditUsername | src/components/LoginPage.js:118 | the username becomes the typed value |
| LoginPage.Login.EditPassword | src/components/LoginPage.js:132 | the password becomes the typed value |
| LoginPage.Login.EditCaptcha | src/components/LoginPage.js:155 | the typed captcha becomes the input value |
| LoginPage.Login.RegenerateCaptcha | src/components/LoginPage.js:94 | a click on the canvas replaces the challenge with CaptchaOf(draws), six alphabet characters, and leaves the typed captcha and every message alone |
| LoginPage.Login.HandleLogin | src/components/LoginPage.js:30-63 | a typed captcha that differs from the challenge (case-sensitive) sets the captcha error, regenerates, clears the input, makes no request and writes no storage. With the captcha right: status 200 writes `username` and `role` and navigates by role; another 2xx status changes nothing; a failure sets "Login failed: Invalid credentials", regenerates and clears the input |
| LoginPage.Login.TogglePasswordVisibility | src/components/LoginPage.js:65-67 | the flag flips, so toggling twice restores it |
| StudentDashboard.AvatarUrl | src/components/StudentDashboard.js:105 | the avatar URL is the fixed prefix followed by the current username |
| StudentDashboard.AvatarUrlRoundTrip | src/components/StudentDashboard.js:105 | the username can be read back from the avatar URL |
| StudentDashboard.AvatarUrlInjective | src/components/StudentDashboard.js:105 | different users get different avatar URLs |
| StudentDashboard.Dashboard.constructor | src/components/StudentDashboard.js:19-20 | the sidebar is closed and no username is shown |
| StudentDashboard.Dashboard.Mount | src/components/StudentDashboard.js:22-31 | with no `username` stored, navigate to /login; otherwise show the stored username |
| StudentDashboard.Dashboard.HandleLogout | src/components/StudentDashboard.js:33-37 | storage loses exactly `token` and `username`, and the page goes to /login |
| StudentDashboard.Dashboard.ToggleSidebar | src/components/StudentDashboard.js:54-56 | `isOpen` is negated |
| StudentDashboard.Dashboard.MouseEnter | src/components/StudentDashboard.js:63 | hovering opens the sidebar |
| StudentDashboard.Dashboard.MouseLeave | src/components/StudentDashboard.js:64 | leaving closes it |
| AdminDashboard.AdminPath | src/admincomponents/AdminDashboard.js:84-86 | navigation goes to "/admin-dashboard/" followed by the path |
| AdminDashboard.IsActive | src/admincomponents/AdminDashboard.js:108 | a menu item is highlighted exactly when the location equals its full dashboard path (see ActiveAfterNavigation) |
| AdminDashboard.ActiveAfterNavigation | src/admincomponents/AdminDashboard.js:108 | after navigating to p, the item for path q is active iff p == q |
| AdminDashboard.OneActiveMenuItem | src/admincomponents/AdminDashboard.js:70-108 | after choosing a menu item, exactly that item of the seven is active |
| AdminDashboard.PictureAfterFetch | src/admincomponents/AdminDashboard.js:36-55 | the fetched image is shown iff the request succeeds with a non-empty blob; otherwise the default icon |
| AdminDashboard.Dashboard.constructor | src/admincomponents/AdminDashboard.js:22-24 | the sidebar is closed, no username, and the default profile icon |
| AdminDashboard.Dashboard.Mount | src/admincomponents/AdminDashboard.js:26-34 | with no `username` stored, navigate to /login and fetch nothing; otherwise set the username and fetch its picture |
| AdminDashboard.Dashboard.FetchProfilePicture | src/admincomponents/AdminDashboard.js:36-55 | the picture becomes the fetched image or the default icon |
| AdminDashboard.Dashboard.HandleLogout | src/admincomponents/AdminDashboard.js:57-61 | storage loses exactly `token` and `username`, and the page goes to /login |
| AdminDashboard.Dashboard.HandleNavigation | src/admincomponents/AdminDashboard.js:84-86 | the page navigates to the admin path |
| AdminDashboard.Dashboard.ToggleSidebar | src/admincomponents/AdminDashboard.js:80-82 | `isOpen` is negated |
| AdminDashboard.Dashboard.MouseEnter | src/admincomponents/AdminDashboard.js:93 | hovering opens the sidebar |
| AdminDashboard.Dashboard.MouseLeave | src/admincomponents/AdminDashboard.js:94 | leaving closes it |
| GeneralFeedbackForm.BlankValues | src/components/GeneralFeedbackForm.js:10-31 | every field starts as "" |
| GeneralFeedbackForm.RequiredRatings | src/components/GeneralFeedbackForm.js:98-138 | the facilities tab needs its 6 ratings, the canteen tab its 4, and the hostel tab its 4 only for a hosteler |
| GeneralFeedbackForm.ValidationPasses | src/components/GeneralFeedbackForm.js:75-139 | validation passes iff the trimmed student id, the department and the year are given and the active tab's required ratings are all given |
| GeneralFeedbackForm.OtherTabsIgnored | src/components/GeneralFeedbackForm.js:98-138 | ratings outside the active tab never change the verdict |
| GeneralFeedbackForm.StudentIdCheckedFirst | src/components/GeneralFeedbackForm.js:76-82 | a blank or all-white-space student id is reported first, whatever else is missing |
| GeneralFeedbackForm.Form.constructor | src/components/GeneralFeedbackForm.js:6-30 | all fields blank, hosteler off, the facilities tab, not loading, no notification |
| GeneralFeedbackForm.Form.HandleInputChange | src/components/GeneralFeedbackForm.js:53-58 | exactly the named field changes |
| GeneralFeedbackForm.Form.ToggleHostelerStatus | src/components/GeneralFeedbackForm.js:60-74 | turning hosteler off clears the four hostel ratings and selects facilities; turning it on keeps all fields and selects the hostel tab |
| GeneralFeedbackForm.Form.SelectTab | src/components/GeneralFeedbackForm.js:316-337 | the chosen tab becomes active (the hostel tab is offered only to hostelers) |
| GeneralFeedbackForm.Form.AllRated | src/components/GeneralFeedbackForm.js:100-101 | the loop over a field list reports whether every field in it is rated |
| GeneralFeedbackForm.Form.ValidateForm | src/components/GeneralFeedbackForm.js:75-139 | returns true iff no check fails; the first failing check sets its message as an error notification |
| GeneralFeedbackForm.Form.ResetForm | src/components/GeneralFeedbackForm.js:141-165 | every field is blank again, hosteler is off and the facilities tab is active |
| GeneralFeedbackForm.Form.HandleSubmit | src/components/GeneralFeedbackForm.js:167-209 | a failed validation sends nothing; otherwise the form data is sent with `isHosteler` equal to the toggle; success notifies and resets, failure notifies and keeps the data; loading is on during the request and off afterwards on every path |
| GeneralFeedbackForm.Form.Send | src/components/GeneralFeedbackForm.js:174-209 | the form data is sent with `isHosteler` equal to the toggle; success notifies and resets, failure notifies and keeps the data; loading is on during the request and off afterwards |
| HostelDataEntry.BlankValues | src/components/HostelDataEntry.js:7-16 | every field starts as "" |
| HostelDataEntry.SpacesPassTheGuard | src/components/HostelDataEntry.js:40 | the untrimmed guard lets a student id of one space through |
| HostelDataEntry.Entry.constructor | src/components/HostelDataEntry.js:5-15 | all eight fields blank and no notification |
| HostelDataEntry.Entry.HandleInputChange | src/components/HostelDataEntry.js:29-34 | exactly the named field changes |
| HostelDataEntry.Entry.HandleSubmit | src/components/HostelDataEntry.js:36-88 | an empty student id, department or year gives an error notice and no request; otherwise the data is sent with `isHosteler` true; success resets all eight fields with a success notice; failure keeps them with an error notice |
| AdminCourseFeedback.CoursesFor | src/admincomponents/AdminCourseFeedback.js:17-39 | the catalogue has entries exactly for the three academic years, five courses each |
| AdminCourseFeedback.DistinctCodes | src/admincomponents/AdminCourseFeedback.js:17-39 | the five course codes of a year are distinct |
| AdminCourseFeedback.DistinctFirstYear | src/admincomponents/AdminCourseFeedback.js:18-24 | the five 2022-2023 course codes are distinct |
| AdminCourseFeedback.DistinctSecondYear | src/admincomponents/AdminCourseFeedback.js:25-31 | the five 2023-2024 course codes are distinct |
| AdminCourseFeedback.DistinctThirdYear | src/admincomponents/AdminCourseFeedback.js:32-38 | the five 2024-2025 course codes are distinct |
| AdminCourseFeedback.FindCourse | src/admincomponents/AdminCourseFeedback.js:79 | `find` gives the first course with the code, or nothing iff no course has it |
| AdminCourseFeedback.FindListedCourse | src/admincomponents/AdminCourseFeedback.js:76-80 | choosing a listed code finds that course |
| AdminCourseFeedback.CreateError | src/admincomponents/AdminCourseFeedback.js:95-114 | a missing year is reported first; otherwise, with no predefined course, a missing name or code is reported; otherwise nothing, each iff |
| AdminCourseFeedback.CreateCourse.constructor | src/admincomponents/AdminCourseFeedback.js:41-56 | all eight fields blank, not submitting, no status message |
| AdminCourseFeedback.CreateCourse.HandleInputChange | src/admincomponents/AdminCourseFeedback.js:60-72 | the field is set; a change of academic year also clears the predefined course, course name and course code; nothing else changes |
| AdminCourseFeedback.CreateCourse.HandlePredefinedCourseChange | src/admincomponents/AdminCourseFeedback.js:74-89 | with a year set, the code and predefined course become the selection and the name becomes its catalogue title (or ""); an empty selection or year changes nothing |
| AdminCourseFeedback.CreateCourse.HandleCreateCourse | src/admincomponents/AdminCourseFeedback.js:91-171 | a guard failure sets its message and sends nothing; otherwise a submit runs with `isSubmitting` set. Success resets all eight fields; a server error shows its message or "Failed to Create Course"; a network error shows "Network Error. Please try again." |
| StudentFacultyFeedback.ParsedRatings | src/components/StudentFacultyFeedback.js:63 | each rating is parsed on its own, with "" as no value |
| StudentFacultyFeedback.PositiveRatings | src/components/StudentFacultyFeedback.js:63 | the filter `r && parseInt(r) > 0`: every kept value is positive, and none is kept iff no rating passes; PositiveRatingsAgree gives how many are kept and what they sum to |
| StudentFacultyFeedback.RoundHalfUpBounds | src/components/StudentFacultyFeedback.js:64-66 | `Math.round(sum / n)` in integers: the result r satisfies r - 1/2 <= sum/n < r + 1/2 |
| StudentFacultyFeedback.RoundHalfUpUnique | src/components/StudentFacultyFeedback.js:64-66 | only one integer meets those bounds |
| StudentFacultyFeedback.OverallRating | src/components/StudentFacultyFeedback.js:63-66 | the overall rating is never negative, and it is 0 iff no rating is positive; OverallRatingIsRoundedMean gives its value otherwise |
| StudentFacultyFeedback.PositiveValues | src/components/StudentFacultyFeedback.js:63 | the `filter` over parsed values: no longer than its input, every kept value positive, empty iff no value passes |
| StudentFacultyFeedback.Sum | src/components/StudentFacultyFeedback.js:65 | the `reduce` total; PositiveRatingsAgree and SumBounds state what it adds up to |
| StudentFacultyFeedback.RoundHalfUp | src/components/StudentFacultyFeedback.js:65 | `Math.round(sum / n)` for a non-negative mean; RoundHalfUpBounds and RoundHalfUpUnique characterise it |
| StudentFacultyFeedback.PositiveRatingsAgree | src/components/StudentFacultyFeedback.js:63-65 | the filtered list has exactly one entry per rating that passes `r && parseInt(r) > 0`, and its `reduce` total equals the sum of those ratings' parsed values, both taken directly over the five ratings |
| StudentFacultyFeedback.OverallRatingIsRoundedMean | src/components/StudentFacultyFeedback.js:63-66 | once some rating passes the filter, the overall rating is `Math.round` of (sum of the passing values) / (number passing), and that sum is at least the count |
| StudentFacultyFeedback.RoundedMean | src/components/StudentFacultyFeedback.js:64-66 | the rounded mean of a non-empty list of positive ratings is at least 1 |
| StudentFacultyFeedback.DropdownRating | src/components/StudentFacultyFeedback.js:127-131 | a non-empty dropdown value is a positive rating from 1 to 5 |
| StudentFacultyFeedback.DropdownRatingsInRange | src/components/StudentFacultyFeedback.js:63-131 | with dropdown values only, every kept rating lies in 1 to 5 |
| StudentFacultyFeedback.OverallRatingInRange | src/components/StudentFacultyFeedback.js:63-131 | with dropdown values only, the overall rating lies in 0 to 5, and in 1 to 5 once any rating is given |
| StudentFacultyFeedback.RoundedMeanAtMost | src/components/StudentFacultyFeedback.js:64-66 | the rounded mean of values at most `hi` is at most `hi` |
| StudentFacultyFeedback.RoundedMeanAtMostFive | src/components/StudentFacultyFeedback.js:64-66 | dropdown ratings of 1 to 5 have a rounded mean of at most 5 |
| StudentFacultyFeedback.HalfRoundsUp | src/components/StudentFacultyFeedback.js:64-66 | a mean exactly halfway between k and k + 1 rounds up to k + 1, as `Math.round` does (ratings 4 and 5 give 5) |
| StudentFacultyFeedback.RatingValue | src/components/StudentFacultyFeedback.js:73-77 | `parseInt(r) \|\| 0`: the parsed value, or 0 for NaN |
| StudentFacultyFeedback.Payload | src/components/StudentFacultyFeedback.js:68-79 | the payload carries the course id, the instructor's name, the overall rating, each category's integer value or 0, and the comment text under both `comment` and `additionalComments` |
| StudentFacultyFeedback.FacultyFeedback.constructor | src/components/StudentFacultyFeedback.js:6-16 | no instructor selected and every feedback field blank |
| StudentFacultyFeedback.FacultyFeedback.HandleInstructorSelect | src/components/StudentFacultyFeedback.js:32-42 | the instructor is selected and courseId and instructorId are set; every rating and comment is kept |
| StudentFacultyFeedback.FacultyFeedback.HandleFeedbackChange | src/components/StudentFacultyFeedback.js:44-50 | exactly the named field changes |
| StudentFacultyFeedback.FacultyFeedback.SubmitInstructorFeedback | src/components/StudentFacultyFeedback.js:52-110 | the payload is sent; success clears the selection and resets all eight fields; an error status alerts with the response text; a failed request, or a submit with no instructor selected, alerts "An error occurred while submitting feedback" |
| StudentFacultyFeedback.FacultyFeedback.CloseModal | src/components/StudentFacultyFeedback.js:112-114 | only the selection is cleared |
| StudentCourseFeedback.WithField | src/components/StudentCourseFeedback.js:39-45 | a field change replaces only the named field; a rating set from the select becomes a string |
| StudentCourseFeedback.WithFieldLastWins | src/components/StudentCourseFeedback.js:39-45 | of two changes to one field, the second wins |
| StudentCourseFeedback.WithFieldCommutes | src/components/StudentCourseFeedback.js:39-45 | changes to two different fields commute |
| StudentCourseFeedback.CourseFeedback.constructor | src/components/StudentCourseFeedback.js:10-15 | no course is selected, and the data is {courseId: "", rating: 0, comment: ""} |
| StudentCourseFeedback.CourseFeedback.HandleCourseSelect | src/components/StudentCourseFeedback.js:31-37 | the course is selected and its id is copied; rating and comment are kept |
| StudentCourseFeedback.CourseFeedback.HandleFeedbackChange | src/components/StudentCourseFeedback.js:39-45 | exactly the named field changes |
| StudentCourseFeedback.CourseFeedback.SubmitFeedback | src/components/StudentCourseFeedback.js:47-72 | the data is sent as it is. An ok response alerts success, clears the selection and resets to {courseId: "", rating: 0, comment: ""}. An error status alerts failure and keeps everything. A failed request only logs |
| StudentCourseFeedback.CourseFeedback.CloseModal | src/components/StudentCourseFeedback.js:74-76 | the selection is cleared and the data is kept |
| StudentFeedbackForm.RemainingHours | src/components/StudentFeedbackForm.js:57-60 | `Math.ceil(diffMs / 3600000)` on integer milliseconds: the least h with diffMs <= 3600000·h |
| StudentFeedbackForm.RemainingHoursUnique | src/components/StudentFeedbackForm.js:60 | only one whole number meets the ceiling bounds |
| StudentFeedbackForm.RemainingHoursMonotone | src/components/StudentFeedbackForm.js:57-62 | the hours left never grow as the clock advances |
| StudentFeedbackForm.RemainingTime | src/components/StudentFeedbackForm.js:57-62 | "Closed" iff the closing time has been reached; otherwise "N hours remaining", with N the positive ceiling |
| StudentFeedbackForm.RemainingTimeReadsBack | src/components/StudentFeedbackForm.js:61 | the N of the label is read back by `parseInt` as the ceiling |
| StudentFeedbackForm.FeedbackForms.constructor | src/components/StudentFeedbackForm.js:6-12 | no notifications, no selection, and {rating: 0, comment: "", formId: null} |
| StudentFeedbackForm.FeedbackForms.FetchNotifications | src/components/StudentFeedbackForm.js:13-26 | the fetched notifications replace the list; a failure leaves it |
| StudentFeedbackForm.FeedbackForms.HandleSelectForm | src/components/StudentFeedbackForm.js:29-36 | the form is selected and the submission becomes rating 0, comment "", formId = the form's id, so submitting is disabled |
| StudentFeedbackForm.FeedbackForms.SelectRating | src/components/StudentFeedbackForm.js:129-132 | the clicked rating is set, comment and formId are kept, and submitting is enabled |
| StudentFeedbackForm.FeedbackForms.EditComment | src/components/StudentFeedbackForm.js:145-148 | only the comment changes |
| StudentFeedbackForm.FeedbackForms.CloseModal | src/components/StudentFeedbackForm.js:114 | the selection is cleared |
| StudentFeedbackForm.FeedbackForms.CanSubmit | src/components/StudentFeedbackForm.js:163 | the submit button is enabled exactly when a rating is chosen; selecting a form disables it and choosing a rating enables it |
| StudentFeedbackForm.FeedbackForms.HandleSubmitFeedback | src/components/StudentFeedbackForm.js:39-54 | the submission is posted to the selected form's path; success clears the selection and resets to {rating: 0, comment: "", formId: null}; a failure, or a submit with nothing selected, alerts and keeps everything |
| AdminFeedbackForm.TypeLabel | src/admincomponents/AdminFeedbackForm.js:63 | `replace('_', ' ')` keeps the length |
| AdminFeedbackForm.FirstUnderscore | src/admincomponents/AdminFeedbackForm.js:63 | the position of the first underscore: absent iff there is none, otherwise an underscore with none before it |
| AdminFeedbackForm.TypeLabelAt | src/admincomponents/AdminFeedbackForm.js:63 | each character of the label is the name's, except that the first underscore, and only that one, becomes a space |
| AdminFeedbackForm.TypeLabelWithoutUnderscore | src/admincomponents/AdminFeedbackForm.js:63 | a name without underscores is its own label |
| AdminFeedbackForm.TypeLabelOfSplit | src/admincomponents/AdminFeedbackForm.js:63 | p + "_" + q is labelled p + " " + q when p has no underscore |
| AdminFeedbackForm.CustomLabel | src/admincomponents/AdminFeedbackForm.js:12-63 | CUSTOM is shown as it is |
| AdminFeedbackForm.SecondUnderscoreKept | src/admincomponents/AdminFeedbackForm.js:63 | with p free of underscores, p + "_" + q + "_" + r is shown as p + " " + q + "_" + r: the second underscore stays |
| AdminFeedbackForm.NotificationForm.constructor | src/admincomponents/AdminFeedbackForm.js:6-11 | the four initial fields, with no custom title |
| AdminFeedbackForm.NotificationForm.HandleChange | src/admincomponents/AdminFeedbackForm.js:19-25 | the checkbox stores `checked` and every other input its `value`; only the named field changes |
| AdminFeedbackForm.NotificationForm.Payload | src/admincomponents/AdminFeedbackForm.js:29-35 | the payload carries the custom title iff the title is "CUSTOM" (null otherwise), and `urgent` equals `isUrgent` |
| AdminFeedbackForm.NotificationForm.HandleSubmit | src/admincomponents/AdminFeedbackForm.js:26-48 | the payload is posted; success restores the four initial fields, dropping any custom title; failure keeps everything |
| SettingsPage.FieldName | src/components/SettingsPage.js:132-133 | the two fields travel as "email" and "phoneNumber" |
| SettingsPage.Seed | src/components/SettingsPage.js:40-44 | the fetched details seed the form with the e-mail and phone number, or "" when they are missing |
| SettingsPage.Toggled | src/components/SettingsPage.js:113-118 | only flag f is negated |
| SettingsPage.ToggledTwice | src/components/SettingsPage.js:113-118 | toggling a flag twice is the identity |
| SettingsPage.ToggledCommutes | src/components/SettingsPage.js:113-118 | toggling the two flags commutes |
| SettingsPage.PreviewAfterFetch | src/components/SettingsPage.js:46-55 | the preview is the fetched picture, or the default avatar iff the picture request fails |
| SettingsPage.WithPassword | src/components/SettingsPage.js:291-305 | each password input changes only its own field |
| SettingsPage.UpdateAlertsDiffer | src/components/SettingsPage.js:138-141 | the success alert of an update never equals an error alert, and it names its field |
| SettingsPage.StudentSettings.constructor | src/components/SettingsPage.js:7-22 | no details, both edit flags off, both form values "", no preview, the modal closed, empty passwords |
| SettingsPage.StudentSettings.FetchUserDetails | src/components/SettingsPage.js:34-67 | fetched details are stored and seed the form, and the picture is fetched; a server error alerts "Error: " with its text or "User not found"; a request without response alerts that no response was received |
| SettingsPage.StudentSettings.Mount | src/components/SettingsPage.js:24-32 | details are fetched only for a stored non-empty username; otherwise "Please log in again" |
| SettingsPage.StudentSettings.ToggleEditMode | src/components/SettingsPage.js:113-118 | only the flag of f flips |
| SettingsPage.StudentSettings.HandleInputChange | src/components/SettingsPage.js:120-125 | only formData[f] changes |
| SettingsPage.StudentSettings.UpdateField | src/components/SettingsPage.js:127-143 | the value of f is sent for the loaded user; success toggles edit mode of f only, re-fetches, and then alerts "f updated successfully"; failure changes nothing and alerts the server's text or "Error updating f" |
| SettingsPage.StudentSettings.OpenPasswordModal | src/components/SettingsPage.js:273 | the modal opens |
| SettingsPage.StudentSettings.ClosePasswordModal | src/components/SettingsPage.js:311 | the modal closes and the typed passwords are kept |
| SettingsPage.StudentSettings.EditPassword | src/components/SettingsPage.js:291-305 | one password field changes |
| SettingsPage.StudentSettings.HandlePasswordChange | src/components/SettingsPage.js:145-171 | a new password other than its confirmation alerts "New passwords do not match" and sends nothing; success closes the modal and resets the three fields; failure keeps both |
| AdminSettingsPage.RenderOf | src/admincomponents/AdminSettingsPage.js:178-180 | render precedence: loading, then a non-empty error, then missing details, each iff |
| AdminSettingsPage.SettingsShownIffLoaded | src/admincomponents/AdminSettingsPage.js:178-180 | loaded details are shown iff nothing is loading and no error is set |
| AdminSettingsPage.AdminSettings.constructor | src/admincomponents/AdminSettingsPage.js:7-24 | the page starts loading, with no error and no details |
| AdminSettingsPage.AdminSettings.FetchUserDetails | src/admincomponents/AdminSettingsPage.js:36-67 | loading is on during the request and off afterwards on every path; details seed the form; a failure sets the error to the response text or "Failed to fetch user details" |
| AdminSettingsPage.AdminSettings.Mount | src/admincomponents/AdminSettingsPage.js:26-34 | without a stored username the error is "No username found. Please log in again.", loading is off and nothing is fetched; a successful fetch seeds the form, sets the preview and shows the details; a failed one shows the error text and keeps the details, the form and the preview |
| AdminSettingsPage.AdminSettings.ToggleEditMode | src/admincomponents/AdminSettingsPage.js:114-119 | only the flag of f flips |
| AdminSettingsPage.AdminSettings.HandleInputChange | src/admincomponents/AdminSettingsPage.js:121-126 | only formData[f] changes |
| AdminSettingsPage.AdminSettings.UpdateField | src/admincomponents/AdminSettingsPage.js:128-146 | as on the student page: the request for the current value, the toggle and "updated" alert on success, the server text or fallback on failure with the state kept; a successful re-fetch reseeds the form and preview, a failed one sets the error text instead of alerting and keeps the details, the form and the preview |
| AdminSettingsPage.AdminSettings.OpenPasswordModal | src/admincomponents/AdminSettingsPage.js:280 | the modal opens |
| AdminSettingsPage.AdminSettings.ClosePasswordModal | src/admincomponents/AdminSettingsPage.js:337 | the modal closes and the typed passwords are kept |
| AdminSettingsPage.AdminSettings.EditPassword | src/admincomponents/AdminSettingsPage.js:298-320 | one password field changes |
| AdminSettingsPage.AdminSettings.HandlePasswordChange | src/admincomponents/AdminSettingsPage.js:148-175 | a mismatch blocks the request; success closes the modal and resets the three password fields; failure alerts the server's text or "Error changing password" |
| ForgotPassword.ValidateEmail | src/components/ForgotPassword.js:12-15 | accepts exactly the addresses the regex `^[^\s@]+@[^\s@]+\.[^\s@]+$` matches |
| ForgotPassword.SameShapeAsSignup | src/components/ForgotPassword.js:12-15 | the sign-up validator accepts exactly the addresses this page accepts that are at most 100 characters long |
| ForgotPassword.ForgotPasswordForm.constructor | src/components/ForgotPassword.js:8-9 | an empty e-mail and not loading |
| ForgotPassword.ForgotPasswordForm.EditEmail | src/components/ForgotPassword.js:63 | the field takes the typed value |
| ForgotPassword.ForgotPasswordForm.HandleSubmit | src/components/ForgotPassword.js:17-52 | an invalid address raises an error toast, sends nothing and never touches loading; otherwise loading is on during the request and off afterwards on every path, and success clears the e-mail |
| ResetPassword.ResetForm.constructor | src/components/ResetPassword.js:8-9 | both passwords start empty |
| ResetPassword.ResetForm.EditNewPassword | src/components/ResetPassword.js:45 | the new password becomes the typed value |
| ResetPassword.ResetForm.EditConfirmPassword | src/components/ResetPassword.js:54 | the confirmation becomes the typed value |
| ResetPassword.ResetForm.HandlePasswordReset | src/components/ResetPassword.js:13-34 | the mismatch check comes first and gives its toast whatever the token; a missing or empty token gives "Invalid or missing token."; otherwise the body is exactly {token, newPassword}, and a failure shows the server's message or "Error resetting password." |
| GeneralFeedbackAdmin.Tally | src/admincomponents/GeneralFeedbackAdmin.js:30-33 | the `reduce` that counts each key; TallyCorrect states what it computes |
| GeneralFeedbackAdmin.Increment | src/admincomponents/GeneralFeedbackAdmin.js:30-33 | one step of the `reduce`: an existing bucket grows by one, a new key gets a bucket of 1 at the end; TallyCorrect states what the fold of these steps computes |
| GeneralFeedbackAdmin.TallyCorrect | src/admincomponents/GeneralFeedbackAdmin.js:30-33 | the `reduce` tally has one bucket per distinct key, in first-occurrence order; each bucket counts its key's occurrences, and the counts sum to the item count |
| GeneralFeedbackAdmin.TallyBuckets | src/admincomponents/GeneralFeedbackAdmin.js:30-33 | the bucket keys are distinct and each occurs among the items |
| GeneralFeedbackAdmin.RatingKey | src/admincomponents/GeneralFeedbackAdmin.js:58 | a falsy rating is tallied as 'Not Rated' |
| GeneralFeedbackAdmin.RatingTally | src/admincomponents/GeneralFeedbackAdmin.js:57-61 | the counts of a rating tally sum to the record count |
| GeneralFeedbackAdmin.TallyLookup | src/admincomponents/GeneralFeedbackAdmin.js:57-61 | the tally counts each key as often as it occurs among the records |
| GeneralFeedbackAdmin.UnansweredCountedAsNotRated | src/admincomponents/GeneralFeedbackAdmin.js:58 | no bucket is "", and 'Not Rated' counts at least every unanswered record |
| GeneralFeedbackAdmin.RatingTallyAppend | src/admincomponents/GeneralFeedbackAdmin.js:53-61 | tallying a concatenation adds the two lists' counts |
| GeneralFeedbackAdmin.HostelersAndDayScholars | src/admincomponents/GeneralFeedbackAdmin.js:28-29 | hostelerCount + dayScholarCount = the number of responses |
| GeneralFeedbackAdmin.HostelerCount | src/admincomponents/GeneralFeedbackAdmin.js:28 | `filter(item => item.hosteler).length`; HostelersAndDayScholars states the split |
| GeneralFeedbackAdmin.DayScholarCount | src/admincomponents/GeneralFeedbackAdmin.js:29 | `filter(item => !item.hosteler).length`; HostelersAndDayScholars states the split |
| GeneralFeedbackAdmin.Recent | src/admincomponents/GeneralFeedbackAdmin.js:34 | the last min(5, n) records, newest first |
| GeneralFeedbackAdmin.Dashboard | src/admincomponents/GeneralFeedbackAdmin.js:26-35 | totalResponses is the length; the hosteler split sums to it; the department counts sum to it and count each department's responses; recentFeedback is the last five reversed |
| GeneralFeedbackAdmin.Hostel | src/admincomponents/GeneralFeedbackAdmin.js:53-77 | each hostel question's counts total the sum of the two list lengths |
| GeneralFeedbackAdmin.HostelCountsAdd | src/admincomponents/GeneralFeedbackAdmin.js:53 | no deduplication: each room-condition count is the sum of the two lists' counts |
| GeneralFeedbackAdmin.Canteen | src/admincomponents/GeneralFeedbackAdmin.js:91-102 | both canteen tallies count every response |
| GeneralFeedbackAdmin.PieChartData | src/admincomponents/GeneralFeedbackAdmin.js:112-117 | one pie entry per bucket, same order, count unchanged |
| GeneralFeedbackAdmin.BarChartData | src/admincomponents/GeneralFeedbackAdmin.js:119-124 | one bar entry per bucket, same order, count unchanged |
| GeneralFeedbackAdmin.DepartmentPie | src/admincomponents/GeneralFeedbackAdmin.js:176-186 | the department pie has one slice per distinct department, and its slices add up to the number of responses |
| GeneralFeedbackAdmin.PieTotalIsTotal | src/admincomponents/GeneralFeedbackAdmin.js:112-117 | the pie's values add up to the tally's total |
| GeneralFeedbackAdmin.CellColor | src/admincomponents/GeneralFeedbackAdmin.js:185-186 | slice i takes palette colour i mod 5 |
| GeneralFeedbackAdmin.CellColorRepeats | src/admincomponents/GeneralFeedbackAdmin.js:185-186 | colours repeat every five slices |
| GeneralFeedbackAdmin.Overview.constructor | src/admincomponents/GeneralFeedbackAdmin.js:6-9 | no dashboard, hostel or canteen data, and loading |
| GeneralFeedbackAdmin.Overview.FetchDashboardData | src/admincomponents/GeneralFeedbackAdmin.js:20-41 | fetched records become the dashboard data; a failure is only logged |
| GeneralFeedbackAdmin.Overview.FetchHostelData | src/admincomponents/GeneralFeedbackAdmin.js:43-83 | with both lists fetched, the hostel data is their combined tally; otherwise nothing changes |
| GeneralFeedbackAdmin.Overview.FetchCanteenData | src/admincomponents/GeneralFeedbackAdmin.js:85-110 | the canteen data is set on success, and loading ends on both paths |
| AdminFacultyFeedback.PieData | src/admincomponents/AdminFacultyFeedback.js:46-56 | [] iff nothing is selected; otherwise five slices Excellent, Good, Average, Fair, Poor with the matching counts |
| AdminFacultyFeedback.PieDataKeepsCounts | src/admincomponents/AdminFacultyFeedback.js:46-56 | the pie determines the five counts |
| AdminFacultyFeedback.BarData | src/admincomponents/AdminFacultyFeedback.js:85-109 | absent iff nothing is selected; otherwise five categories in fixed order with the matching ratings |
| AdminFacultyFeedback.FindFaculty | src/admincomponents/AdminFacultyFeedback.js:135-137 | the first summary whose instructorName equals the chosen value, or nothing iff none does |
| AdminFacultyFeedback.FindListedFaculty | src/admincomponents/AdminFacultyFeedback.js:135-144 | choosing a listed name selects the first summary carrying it |
| AdminFacultyFeedback.CellColor | src/admincomponents/AdminFacultyFeedback.js:74-75 | slice i takes palette colour i mod 5 |
| AdminFacultyFeedback.CellColorRepeats | src/admincomponents/AdminFacultyFeedback.js:74-75 | colours repeat every five slices |
| AdminFacultyFeedback.FacultyFeedbackAnalytics.constructor | src/admincomponents/AdminFacultyFeedback.js:20-23 | no data, no selection, loading, no error |
| AdminFacultyFeedback.FacultyFeedbackAnalytics.FetchFacultyAnalytics | src/admincomponents/AdminFacultyFeedback.js:25-44 | fetched data is stored; an error status sets "Failed to fetch faculty analytics"; a failed request sets its own message; loading ends on every path |
| AdminFacultyFeedback.FacultyFeedbackAnalytics.SelectFaculty | src/admincomponents/AdminFacultyFeedback.js:135-137 | the selection is the first match by name |
| AdminFacultyFeedback.FacultyFeedbackAnalytics.Render | src/admincomponents/AdminFacultyFeedback.js:125-126 | loading, then a non-empty error, then the analytics |
| CourseFeedbackAnalytics.CourseRatingData | src/admincomponents/CourseFeedbackAnalytics.js:31-39 | [] without courseFeedbacks; otherwise the same length and order, with name, averageRating and totalFeedbacks copied |
| CourseFeedbackAnalytics.StarNameRoundTrip | src/admincomponents/CourseFeedbackAnalytics.js:46 | the rating can be read back from "<rating> Star" |
| CourseFeedbackAnalytics.StarNameInjective | src/admincomponents/CourseFeedbackAnalytics.js:46 | different ratings get different slice names |
| CourseFeedbackAnalytics.StarName | src/admincomponents/CourseFeedbackAnalytics.js:46 | the slice name `${rating} Star`; StarNameRoundTrip and StarNameInjective characterise it |
| CourseFeedbackAnalytics.RatingDistributionData | src/admincomponents/CourseFeedbackAnalytics.js:42-49 | [] without ratingDistribution; otherwise one slice per key, in order, named exactly "<key> Star" (so the key reads back from the name), with its count |
| CourseFeedbackAnalytics.FeedbackAnalytics.constructor | src/admincomponents/CourseFeedbackAnalytics.js:7-9 | no analytics, loading, no error |
| CourseFeedbackAnalytics.FeedbackAnalytics.FetchFeedbackData | src/admincomponents/CourseFeedbackAnalytics.js:15-25 | success stores the data; any failure sets "Failed to fetch feedback data" and shows it; loading ends on every path |
| CourseFeedbackAnalytics.FeedbackAnalytics.Render | src/admincomponents/CourseFeedbackAnalytics.js:51-55 | loading, then a non-empty error, then the two charts built from the data |
| CourseFeedbackAnalytics.FeedbackAnalytics.SliceColor | src/admincomponents/CourseFeedbackAnalytics.js:87-88 | slice i takes palette colour i mod 5 |
| HomePage.PresentItems | src/components/HomePage.js:31-33 | counts the present items, 0 iff none and 3 iff all |
| HomePage.ProfileCompleteness | src/components/HomePage.js:29-36 | 25 per present item plus the base 25, so it is 25, 50, 75 or 100; 100 iff all are present and 25 iff none is |
| HomePage.CompletenessMonotone | src/components/HomePage.js:29-36 | adding any present item never lowers completeness |
| HomePage.FetchedProfileComplete | src/components/HomePage.js:20 | the fixed profile set after the fetch is 100% complete |
| HomePage.Overview | src/components/HomePage.js:67 | the first min(3, n) courses, in order |
| HomePage.Render | src/components/HomePage.js:38-75 | loading iff no profile is set; otherwise the total course count is the list length, plus the completeness label and the overview |
| HomePage.AfterFetch | src/components/HomePage.js:13-27 | success sets the courses and the fixed profile; a failure leaves the initial state |
| HomePage.FetchThenRender | src/components/HomePage.js:13-38 | a failed fetch leaves the page loading; a successful one shows the courses and "100%" |

## Left out

- HTTP (`fetch`, `axios`), `alert`, toasts and `navigate` are not performed. A request's result is a parameter, and the request, the alert and the navigation target are returns or fields.
- axios's third failure kind, an error while setting up a request, is not modelled. Outcomes are only a response, an error response or no response. The "Error setting up request" branches are therefore absent.
- A backend body that is not what the component expects is folded into the failure outcomes. This covers `response.json()` failing, and non-array data that makes `filter` throw.
- Canvas drawing of the captcha and `Math.random` are left out. The six random indices are inputs.
- Timers are left out: the notification auto-clear, the delayed redirects and the reset animation.
- Floating point is left out: `toFixed`, percent labels and progress widths. Averages from the backend are copied as `real`. `Math.round` of the integer mean is exact integer arithmetic.
- Dates are left out: closing dates and the clock are integer milliseconds supplied by the caller, and `new Date(closingDate)` in the admin form payload is kept as the typed string.
- FileReader, Blob, `URL.createObjectURL` and the profile-picture upload of both settings pages are left out. A fetched picture is its bytes.
- The course list fetch of the course and instructor feedback pages only fills the displayed cards and is left out.
- src/App.js is a route table and src/admincomponents/AdminHomePage.js only formats fetched numbers; neither is part of this model.
- React rendering, batching and stale closures are not modelled, except for one stale closure reported under Findings. Each handler is one atomic transition.
- JavaScript key order: a tally keeps keys in first-occurrence order. JavaScript lists integer-like keys first, in ascending order.
- Keys that name `Object.prototype` members: the tallies fold into a plain `{}`, so `acc[key] || 0` would read an inherited member for a key such as `"toString"` or `"constructor"`, and a `"__proto__"` key would not be stored. The model counts every key as an ordinary entry. The forms' own selects never produce such keys.
- `parseInt`'s hexadecimal prefix and a radix are not modelled. Strings are sequences of code points, not UTF-16 units.
- Identifiers from the backend (course and form ids) are strings.
- LoginPage.Login.HandleLogin: a login answered with 200 but no `role` would store "undefined"; the model always has a role string.
- StudentDashboard: the sidebar's navigation to relative item paths goes through the router and is not modelled.
- AdminFacultyFeedback.FacultyFeedbackAnalytics.FetchFacultyAnalytics: the text of a network failure is browser-specific, so it is a parameter.
- The browser's own form checks (`required` inputs and `type="email"`) are not modelled. Every submit handler is called directly, so its guards also see inputs the browser would have stopped, such as an empty e-mail on the forgot-password form or empty hostel fields.
- AdminFeedbackForm.NotificationForm.Payload: with the title CUSTOM and no custom title typed, `customTitle` is `undefined` and `JSON.stringify` drops the key; for any other title the key is sent as `null`. The model writes both as `None`.

## Findings

| source | as written | input that shows it | evidently intended | confidence | as-written member | corrected member |
|---|---|---|---|---|---|---|
| src/components/SignupPage.js:120-127 | the password handler re-checks the retype field against `password` from the render the handler was created in, i.e. the value before the keystroke | previous password "Secret1", typed "Secret1!", retype "Secret1!" (touched): the retype keeps "Passwords do not match" | compare the retype with the value just typed | not executed | SignupPage.StaleRetypeCheck | SignupPage.PasswordChangeErrors |
