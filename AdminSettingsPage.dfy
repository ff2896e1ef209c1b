/**
 * The admin's settings page: the same edit, update and password handlers as the
 * student's page, plus a loading flag and an error text that decide, in that
 * order, what the page renders. Fetch failures set the error text instead of
 * alerting.
 */
module AdminSettingsPage {
  import opened Common
  import Session
  import opened SettingsPage

  const NoUsernameError := "No username found. Please log in again."
  const FetchFailed := "Failed to fetch user details"

  /** What the component renders. */
  datatype View = LoadingView | ErrorView(message: string) | NothingView | SettingsView(user: UserDetails)

  /** The three early returns in order: loading, then a non-empty error, then
      missing details. */
  function RenderOf(isLoading: bool, error: Option<string>, userData: Option<UserDetails>): (v: View)
    ensures v == LoadingView <==> isLoading
    ensures v.ErrorView? <==> !isLoading && error.Some? && error.value != ""
    ensures v.ErrorView? ==> v.message == error.value
    ensures v == NothingView <==> !isLoading && (error.None? || error.value == "") && userData.None?
    ensures v.SettingsView? ==> userData == Some(v.user)
  {
    if isLoading then LoadingView
    else if error.Some? && error.value != "" then ErrorView(error.value)
    else if userData.None? then NothingView
    else SettingsView(userData.value)
  }

  /** Loaded details show only while nothing is loading and no error is set. */
  lemma SettingsShownIffLoaded(isLoading: bool, error: Option<string>, d: UserDetails)
    ensures RenderOf(isLoading, error, Some(d)) == SettingsView(d) <==> !isLoading && (error.None? || error.value == "")
  {
  }

  class AdminSettings {
    var userData: Option<UserDetails>
    var editMode: map<ProfileField, bool>
    var formData: map<ProfileField, string>
    var previewImage: Option<Preview>
    var passwordModal: bool
    var passwords: PasswordData
    var isLoading: bool
    var error: Option<string>

    predicate Valid()
      reads this
    {
      Complete(editMode) && Complete(formData)
    }

    /** What the page shows in the current state. */
    function Render(): View
      reads this
    {
      RenderOf(isLoading, error, userData)
    }

    constructor ()
      ensures Valid() && userData == None && previewImage == None && isLoading && error == None
      ensures !editMode[Email] && !editMode[PhoneNumber] && formData[Email] == "" && formData[PhoneNumber] == ""
      ensures !passwordModal && passwords == EmptyPasswords
      ensures Render() == LoadingView
    {
      userData := None;
      editMode := map[Email := false, PhoneNumber := false];
      formData := map[Email := "", PhoneNumber := ""];
      previewImage := None;
      passwordModal := false;
      passwords := EmptyPasswords;
      isLoading := true;
      error := None;
      new;
      BothFieldsComplete(editMode);
      BothFieldsComplete(formData);
    }

    /** `fetchUserDetails`: loading is set while the request runs and cleared
        on every path; a fetched record seeds the form, a failure sets the error
        text (a previous error is not cleared by a success). */
    method FetchUserDetails(details: Outcome<UserDetails>, picture: Outcome<seq<bv8>>) returns (loadingDuringRequest: bool)
      requires Valid()
      modifies this`userData, this`formData, this`previewImage, this`isLoading, this`error
      ensures Valid() && loadingDuringRequest && !isLoading
      ensures details.Ok? ==>
        userData == Some(details.data) && formData == Seed(details.data)
        && previewImage == Some(PreviewAfterFetch(picture)) && error == old(error)
      ensures !details.Ok? ==>
        error == Some(FailureText(details, FetchFailed))
        && userData == old(userData) && formData == old(formData) && previewImage == old(previewImage)
    {
      isLoading := true;
      loadingDuringRequest := isLoading;
      if details.Ok? {
        userData := Some(details.data);
        formData := Seed(details.data);
        previewImage := Some(PreviewAfterFetch(picture));
      } else {
        error := Some(FailureText(details, FetchFailed));
      }
      isLoading := false;
    }

    /** The mount effect: without a stored username the error is shown and no
        request is made; otherwise the details are fetched and, once fetched,
        shown. */
    method Mount(store: Session.Store, details: Outcome<UserDetails>, picture: Outcome<seq<bv8>>)
      returns (request: Option<string>)
      requires Valid()
      modifies this`userData, this`formData, this`previewImage, this`isLoading, this`error
      ensures Valid() && !isLoading
      ensures request == Session.SignedInUser(store.items)
      ensures request.None? ==>
        error == Some(NoUsernameError) && Render() == ErrorView(NoUsernameError)
        && userData == old(userData) && formData == old(formData) && previewImage == old(previewImage)
      ensures request.Some? && details.Ok? ==>
        userData == Some(details.data) && formData == Seed(details.data)
        && previewImage == Some(PreviewAfterFetch(picture)) && error == old(error)
      ensures request.Some? && details.Ok? && old(error) == None ==> Render() == SettingsView(details.data)
      ensures request.Some? && !details.Ok? ==>
        error == Some(FailureText(details, FetchFailed)) && Render() == ErrorView(FailureText(details, FetchFailed))
        && userData == old(userData) && formData == old(formData) && previewImage == old(previewImage)
    {
      request := Session.SignedInUser(store.items);
      if request.None? {
        error := Some(NoUsernameError);
        isLoading := false;
      } else {
        var _ := FetchUserDetails(details, picture);
      }
    }

    method ToggleEditMode(f: ProfileField)
      requires Valid()
      modifies this`editMode
      ensures Valid() && editMode == Toggled(old(editMode), f)
    {
      editMode := Toggled(editMode, f);
    }

    method HandleInputChange(f: ProfileField, value: string)
      requires Valid()
      modifies this`formData
      ensures Valid() && formData == old(formData)[f := value]
    {
      formData := formData[f := value];
    }

    /** `updateField`: as on the student page, except that the second fetch
        reports its failure through the error text. */
    method UpdateField(f: ProfileField, outcome: Outcome<()>, details: Outcome<UserDetails>, picture: Outcome<seq<bv8>>)
      returns (request: Option<UpdateRequest>, alert: string)
      requires Valid()
      modifies this`editMode, this`userData, this`formData, this`previewImage, this`isLoading, this`error
      ensures Valid()
      ensures old(userData).None? ==>
        request == None && alert == UpdateErrorAlert(f)
        && editMode == old(editMode) && userData == old(userData) && formData == old(formData)
        && previewImage == old(previewImage) && isLoading == old(isLoading) && error == old(error)
      ensures old(userData).Some? ==>
        request == Some(UpdateRequest(old(userData).value.username, FieldName(f), old(formData)[f]))
      ensures old(userData).Some? && outcome.Ok? ==>
        alert == UpdatedAlert(f) && editMode == Toggled(old(editMode), f) && !isLoading
        && (details.Ok? ==>
              userData == Some(details.data) && formData == Seed(details.data)
              && previewImage == Some(PreviewAfterFetch(picture)) && error == old(error))
        && (!details.Ok? ==>
              error == Some(FailureText(details, FetchFailed))
              && userData == old(userData) && formData == old(formData) && previewImage == old(previewImage))
      ensures old(userData).Some? && !outcome.Ok? ==>
        alert == FailureText(outcome, UpdateErrorAlert(f))
        && editMode == old(editMode) && userData == old(userData) && formData == old(formData)
        && previewImage == old(previewImage) && isLoading == old(isLoading) && error == old(error)
    {
      if userData.None? {
        return None, UpdateErrorAlert(f);
      }
      request := Some(UpdateRequest(userData.value.username, FieldName(f), formData[f]));
      if outcome.Ok? {
        editMode := Toggled(editMode, f);
        var _ := FetchUserDetails(details, picture);
        alert := UpdatedAlert(f);
      } else {
        alert := FailureText(outcome, UpdateErrorAlert(f));
      }
    }

    method OpenPasswordModal()
      modifies this`passwordModal
      ensures passwordModal
    {
      passwordModal := true;
    }

    method ClosePasswordModal()
      modifies this`passwordModal
      ensures !passwordModal
    {
      passwordModal := false;
    }

    method EditPassword(input: PasswordInput, value: string)
      modifies this`passwords
      ensures passwords == WithPassword(old(passwords), input, value)
    {
      passwords := WithPassword(passwords, input, value);
    }

    /** `handlePasswordChange`, with the same guards and outcomes as on the
        student page. */
    method HandlePasswordChange(outcome: Outcome<()>) returns (request: Option<PasswordRequest>, alert: string)
      modifies this`passwordModal, this`passwords
      ensures old(passwords).newPassword != old(passwords).confirmPassword ==>
        request == None && alert == MismatchAlert && passwordModal == old(passwordModal) && passwords == old(passwords)
      ensures old(passwords).newPassword == old(passwords).confirmPassword && userData.None? ==>
        request == None && alert == PasswordErrorAlert && passwordModal == old(passwordModal) && passwords == old(passwords)
      ensures old(passwords).newPassword == old(passwords).confirmPassword && userData.Some? ==>
        request == Some(PasswordRequest(userData.value.username, old(passwords).currentPassword, old(passwords).newPassword))
      ensures old(passwords).newPassword == old(passwords).confirmPassword && userData.Some? && outcome.Ok? ==>
        alert == PasswordChangedAlert && !passwordModal && passwords == EmptyPasswords
      ensures old(passwords).newPassword == old(passwords).confirmPassword && userData.Some? && !outcome.Ok? ==>
        alert == FailureText(outcome, PasswordErrorAlert) && passwordModal == old(passwordModal) && passwords == old(passwords)
    {
      if passwords.newPassword != passwords.confirmPassword {
        return None, MismatchAlert;
      }
      if userData.None? {
        return None, PasswordErrorAlert;
      }
      request := Some(PasswordRequest(userData.value.username, passwords.currentPassword, passwords.newPassword));
      if outcome.Ok? {
        alert := PasswordChangedAlert;
        passwordModal := false;
        passwords := EmptyPasswords;
      } else {
        alert := FailureText(outcome, PasswordErrorAlert);
      }
    }
  }
}
