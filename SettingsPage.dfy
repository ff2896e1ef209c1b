/**
 * The student's settings page: the user's details are fetched for the stored
 * username, the e-mail address and phone number are edited one at a time behind
 * an edit-mode flag each, and the password is changed in a modal that first
 * compares the new password with its confirmation. The definitions shared with
 * the admin settings page live here.
 */
module SettingsPage {
  import opened Common
  import Session

  /** The two editable profile fields. */
  datatype ProfileField = Email | PhoneNumber

  /** The name a field travels under, in `update-field` requests and in alerts. */
  function FieldName(f: ProfileField): (name: string)
    ensures name == "email" <==> f == Email
    ensures name == "phoneNumber" <==> f == PhoneNumber
  {
    match f
    case Email => "email"
    case PhoneNumber => "phoneNumber"
  }

  /** The fetched user record; a missing or null e-mail or phone number is `None`. */
  datatype UserDetails = UserDetails(username: string, email: Option<string>, phoneNumber: Option<string>)

  /** A map that holds a value for each of the two fields, as `editMode` and
      `formData` do. */
  predicate Complete<V>(m: map<ProfileField, V>)
  {
    forall f: ProfileField :: f in m
  }

  /** A map holding both fields is complete. */
  lemma BothFieldsComplete<V>(m: map<ProfileField, V>)
    requires Email in m && PhoneNumber in m
    ensures Complete(m)
  {
    forall f: ProfileField ensures f in m {
      match f {
        case Email => case PhoneNumber =>
      }
    }
  }

  /** `value || ''` for an optional string. */
  function OrEmpty(o: Option<string>): (r: string)
    ensures o.Some? ==> r == o.value
    ensures o.None? ==> r == ""
  {
    match o
    case Some(s) => s
    case None => ""
  }

  /** The form data a fetch seeds: each field's fetched value, or "" when it is
      missing. */
  function Seed(d: UserDetails): (m: map<ProfileField, string>)
    ensures Complete(m)
    ensures m[Email] == OrEmpty(d.email) && m[PhoneNumber] == OrEmpty(d.phoneNumber)
  {
    var m := map[Email := OrEmpty(d.email), PhoneNumber := OrEmpty(d.phoneNumber)];
    BothFieldsComplete(m);
    m
  }

  /** `toggleEditMode(field)` on the flags. */
  function Toggled(m: map<ProfileField, bool>, f: ProfileField): (r: map<ProfileField, bool>)
    requires Complete(m)
    ensures Complete(r) && r[f] == !m[f]
    ensures forall g :: g in m && g != f ==> g in r && r[g] == m[g]
  {
    m[f := !m[f]]
  }

  /** Toggling a flag twice gives the flags back. */
  lemma ToggledTwice(m: map<ProfileField, bool>, f: ProfileField)
    requires Complete(m)
    ensures Toggled(Toggled(m, f), f) == m
  {
  }

  /** Toggling one flag and then the other, in either order, gives the same flags. */
  lemma ToggledCommutes(m: map<ProfileField, bool>)
    requires Complete(m)
    ensures Toggled(Toggled(m, Email), PhoneNumber) == Toggled(Toggled(m, PhoneNumber), Email)
  {
  }

  /** The preview image: an object URL of the fetched picture, or the default
      avatar when the picture could not be fetched. */
  datatype Preview = ObjectUrl(blob: seq<bv8>) | DefaultAvatar

  /** The picture a successful details fetch leaves. */
  function PreviewAfterFetch(picture: Outcome<seq<bv8>>): (p: Preview)
    ensures p == DefaultAvatar <==> !picture.Ok?
    ensures picture.Ok? ==> p.blob == picture.data
  {
    if picture.Ok? then ObjectUrl(picture.data) else DefaultAvatar
  }

  datatype PasswordData = PasswordData(currentPassword: string, newPassword: string, confirmPassword: string)

  const EmptyPasswords := PasswordData("", "", "")

  datatype PasswordInput = CurrentInput | NewInput | ConfirmInput

  function WithPassword(p: PasswordData, input: PasswordInput, value: string): (r: PasswordData)
    ensures input == CurrentInput ==> r == p.(currentPassword := value)
    ensures input == NewInput ==> r == p.(newPassword := value)
    ensures input == ConfirmInput ==> r == p.(confirmPassword := value)
  {
    match input
    case CurrentInput => p.(currentPassword := value)
    case NewInput => p.(newPassword := value)
    case ConfirmInput => p.(confirmPassword := value)
  }

  /** The query of an `update-field` request. */
  datatype UpdateRequest = UpdateRequest(username: string, field: string, value: string)

  /** The query of a `change-password` request. */
  datatype PasswordRequest = PasswordRequest(username: string, currentPassword: string, newPassword: string)

  const LoginAgainAlert := "Please log in again"
  const UserNotFound := "User not found"
  const NoResponseAlert := "No response received from server. Please check your connection."
  const MismatchAlert := "New passwords do not match"
  const PasswordChangedAlert := "Password changed successfully"
  const PasswordErrorAlert := "Error changing password"

  function UpdatedAlert(f: ProfileField): string
  {
    FieldName(f) + " updated successfully"
  }

  function UpdateErrorAlert(f: ProfileField): string
  {
    "Error updating " + FieldName(f)
  }

  /** The alert `fetchUserDetails` shows when the details request fails. */
  function DetailsAlert(details: Outcome<UserDetails>): string
    requires !details.Ok?
  {
    if details.ServerError? then "Error: " + OrElse(details.message, UserNotFound) else NoResponseAlert
  }

  /** The update alerts and the password alerts never coincide with the
      success texts, whatever the field. */
  lemma UpdateAlertsDiffer(f: ProfileField, g: ProfileField)
    ensures UpdatedAlert(f) != UpdateErrorAlert(g)
    ensures UpdatedAlert(f) == UpdatedAlert(g) <==> f == g
  {
    assert UpdateErrorAlert(g)[0] == 'E';
    assert UpdatedAlert(f)[0] == FieldName(f)[0];
    if f != g {
      assert |UpdatedAlert(f)| != |UpdatedAlert(g)|;
    }
  }

  class StudentSettings {
    var userData: Option<UserDetails>
    var editMode: map<ProfileField, bool>
    var formData: map<ProfileField, string>
    var previewImage: Option<Preview>
    var passwordModal: bool
    var passwords: PasswordData

    predicate Valid()
      reads this
    {
      Complete(editMode) && Complete(formData)
    }

    constructor ()
      ensures Valid() && userData == None && previewImage == None
      ensures !editMode[Email] && !editMode[PhoneNumber] && formData[Email] == "" && formData[PhoneNumber] == ""
      ensures !passwordModal && passwords == EmptyPasswords
    {
      userData := None;
      editMode := map[Email := false, PhoneNumber := false];
      formData := map[Email := "", PhoneNumber := ""];
      previewImage := None;
      passwordModal := false;
      passwords := EmptyPasswords;
      new;
      BothFieldsComplete(editMode);
      BothFieldsComplete(formData);
    }

    /** `fetchUserDetails`: a fetched record seeds the form and triggers the
        picture request; a failure only alerts. */
    method FetchUserDetails(details: Outcome<UserDetails>, picture: Outcome<seq<bv8>>) returns (alert: Option<string>)
      requires Valid()
      modifies this`userData, this`formData, this`previewImage
      ensures Valid()
      ensures details.Ok? ==>
        alert == None && userData == Some(details.data) && formData == Seed(details.data)
        && previewImage == Some(PreviewAfterFetch(picture))
      ensures details.ServerError? ==>
        alert == Some("Error: " + OrElse(details.message, UserNotFound))
        && userData == old(userData) && formData == old(formData) && previewImage == old(previewImage)
      ensures details.NetworkError? ==>
        alert == Some(NoResponseAlert)
        && userData == old(userData) && formData == old(formData) && previewImage == old(previewImage)
    {
      match details {
        case Ok(d) =>
          userData := Some(d);
          formData := Seed(d);
          previewImage := Some(PreviewAfterFetch(picture));
          alert := None;
        case ServerError(m) =>
          alert := Some("Error: " + OrElse(m, UserNotFound));
        case NetworkError =>
          alert := Some(NoResponseAlert);
      }
    }

    /** The mount effect: details are fetched only for a stored, non-empty
        username. */
    method Mount(store: Session.Store, details: Outcome<UserDetails>, picture: Outcome<seq<bv8>>)
      returns (request: Option<string>, alert: Option<string>)
      requires Valid()
      modifies this`userData, this`formData, this`previewImage
      ensures Valid()
      ensures request == Session.SignedInUser(store.items)
      ensures request.None? ==>
        alert == Some(LoginAgainAlert)
        && userData == old(userData) && formData == old(formData) && previewImage == old(previewImage)
      ensures request.Some? && details.Ok? ==>
        alert == None && userData == Some(details.data) && formData == Seed(details.data)
        && previewImage == Some(PreviewAfterFetch(picture))
      ensures request.Some? && !details.Ok? ==>
        alert == Some(DetailsAlert(details))
        && userData == old(userData) && formData == old(formData) && previewImage == old(previewImage)
    {
      request := Session.SignedInUser(store.items);
      if request.None? {
        alert := Some(LoginAgainAlert);
      } else {
        alert := FetchUserDetails(details, picture);
      }
    }

    /** `toggleEditMode`: only the flag of `f` flips. */
    method ToggleEditMode(f: ProfileField)
      requires Valid()
      modifies this`editMode
      ensures Valid() && editMode == Toggled(old(editMode), f)
    {
      editMode := Toggled(editMode, f);
    }

    /** `handleInputChange`: only the form value of `f` changes. */
    method HandleInputChange(f: ProfileField, value: string)
      requires Valid()
      modifies this`formData
      ensures Valid() && formData == old(formData)[f := value]
    {
      formData := formData[f := value];
    }

    /** `updateField`: the form value of `f` is posted for the loaded user; on
        success edit mode of `f` flips and the details are fetched again before
        the success alert; on failure nothing changes. Without loaded details
        reading the username fails and only the error alert is shown. */
    method UpdateField(f: ProfileField, outcome: Outcome<()>, details: Outcome<UserDetails>, picture: Outcome<seq<bv8>>)
      returns (request: Option<UpdateRequest>, alerts: seq<string>)
      requires Valid()
      modifies this`editMode, this`userData, this`formData, this`previewImage
      ensures Valid()
      ensures old(userData).None? ==>
        request == None && alerts == [UpdateErrorAlert(f)]
        && editMode == old(editMode) && userData == old(userData) && formData == old(formData)
        && previewImage == old(previewImage)
      ensures old(userData).Some? ==>
        request == Some(UpdateRequest(old(userData).value.username, FieldName(f), old(formData)[f]))
      ensures old(userData).Some? && outcome.Ok? ==>
        editMode == Toggled(old(editMode), f) && |alerts| > 0 && alerts[|alerts| - 1] == UpdatedAlert(f)
        && (details.Ok? ==> alerts == [UpdatedAlert(f)] && userData == Some(details.data) && formData == Seed(details.data)
                            && previewImage == Some(PreviewAfterFetch(picture)))
        && (!details.Ok? ==> alerts == [DetailsAlert(details), UpdatedAlert(f)]
                             && userData == old(userData) && formData == old(formData) && previewImage == old(previewImage))
      ensures old(userData).Some? && !outcome.Ok? ==>
        alerts == [FailureText(outcome, UpdateErrorAlert(f))]
        && editMode == old(editMode) && userData == old(userData) && formData == old(formData)
        && previewImage == old(previewImage)
    {
      if userData.None? {
        return None, [UpdateErrorAlert(f)];
      }
      request := Some(UpdateRequest(userData.value.username, FieldName(f), formData[f]));
      if outcome.Ok? {
        editMode := Toggled(editMode, f);
        var fetchAlert := FetchUserDetails(details, picture);
        alerts := (if fetchAlert.Some? then [fetchAlert.value] else []) + [UpdatedAlert(f)];
      } else {
        alerts := [FailureText(outcome, UpdateErrorAlert(f))];
      }
    }

    method OpenPasswordModal()
      modifies this`passwordModal
      ensures passwordModal
    {
      passwordModal := true;
    }

    /** The cancel button: the typed passwords are kept. */
    method ClosePasswordModal()
      modifies this`passwordModal
      ensures !passwordModal
    {
      passwordModal := false;
    }

    method EditPassword(input: PasswordInput, value: string)
      modifies this`passwords
      ensures passwords == WithPassword(old(passwords), input, value)
    {
      passwords := WithPassword(passwords, input, value);
    }

    /** `handlePasswordChange`: a confirmation that differs from the new
        password stops it before any request; success closes the modal and
        clears the three fields; failure keeps both. */
    method HandlePasswordChange(outcome: Outcome<()>) returns (request: Option<PasswordRequest>, alert: string)
      modifies this`passwordModal, this`passwords
      ensures old(passwords).newPassword != old(passwords).confirmPassword ==>
        request == None && alert == MismatchAlert && passwordModal == old(passwordModal) && passwords == old(passwords)
      ensures old(passwords).newPassword == old(passwords).confirmPassword && userData.None? ==>
        request == None && alert == PasswordErrorAlert && passwordModal == old(passwordModal) && passwords == old(passwords)
      ensures old(passwords).newPassword == old(passwords).confirmPassword && userData.Some? ==>
        request == Some(PasswordRequest(userData.value.username, old(passwords).currentPassword, old(passwords).newPassword))
      ensures old(passwords).newPassword == old(passwords).confirmPassword && userData.Some? && outcome.Ok? ==>
        alert == PasswordChangedAlert && !passwordModal && passwords == EmptyPasswords
      ensures old(passwords).newPassword == old(passwords).confirmPassword && userData.Some? && !outcome.Ok? ==>
        alert == FailureText(outcome, PasswordErrorAlert) && passwordModal == old(passwordModal) && passwords == old(passwords)
    {
      if passwords.newPassword != passwords.confirmPassword {
        return None, MismatchAlert;
      }
      if userData.None? {
        return None, PasswordErrorAlert;
      }
      request := Some(PasswordRequest(userData.value.username, passwords.currentPassword, passwords.newPassword));
      if outcome.Ok? {
        alert := PasswordChangedAlert;
        passwordModal := false;
        passwords := EmptyPasswords;
      } else {
        alert := FailureText(outcome, PasswordErrorAlert);
      }
    }
  }
}
