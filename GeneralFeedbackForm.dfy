/**
 * The general feedback form: eighteen text fields and the hosteler flag, three
 * rating tabs (the hostel tab exists only for hostelers), the ordered checks of
 * `validateForm` that look only at the active tab's ratings, the reset, and the
 * submission whose `isHosteler` is taken from the toggle.
 */
module GeneralFeedbackForm {
  import opened Common

  /** The text fields of `formData`, in declaration order. */
  datatype GField =
    | StudentId | Department | Year
    | BuildingCleanliness | ClassroomCondition | WashroomCleanliness | WaterFacilities | Lighting | Ventilation
    | CanteenCleanliness | FoodQuality | CanteenPricing | CanteenVariety
    | RoomCondition | HostelFood | HostelCleanliness | HostelStaff
    | Comments

  datatype Tab = Facilities | Canteen | Hostel

  const FacilityFields: seq<GField> :=
    [BuildingCleanliness, ClassroomCondition, WashroomCleanliness, WaterFacilities, Lighting, Ventilation]
  const CanteenFields: seq<GField> := [CanteenCleanliness, FoodQuality, CanteenPricing, CanteenVariety]
  const HostelFields: seq<GField> := [RoomCondition, HostelFood, HostelCleanliness, HostelStaff]

  const StudentIdMissing := "Please enter your Student ID"
  const DepartmentMissing := "Please select your Department"
  const YearMissing := "Please select your Year of Study"
  const FacilitiesIncomplete := "Please complete all ratings in General Facilities section"
  const CanteenIncomplete := "Please complete all ratings in Canteen section"
  const HostelIncomplete := "Please complete all ratings in Hostel section"
  const Submitted := "Thank you! Your feedback has been submitted successfully."
  const SubmitFailed := "Unable to submit feedback. Please try again later."

  /** Every text field holds a value. */
  predicate Complete(values: map<GField, string>)
  {
    forall f: GField :: f in values
  }

  const AllFields: set<GField> :=
    {StudentId, Department, Year, BuildingCleanliness, ClassroomCondition, WashroomCleanliness,
     WaterFacilities, Lighting, Ventilation, CanteenCleanliness, FoodQuality, CanteenPricing,
     CanteenVariety, RoomCondition, HostelFood, HostelCleanliness, HostelStaff, Comments}

  lemma AllFieldsListed()
    ensures forall f: GField :: f in AllFields
  {
    forall f: GField ensures f in AllFields {
      match f {
        case StudentId => case Department => case Year =>
        case BuildingCleanliness => case ClassroomCondition => case WashroomCleanliness =>
        case WaterFacilities => case Lighting => case Ventilation =>
        case CanteenCleanliness => case FoodQuality => case CanteenPricing => case CanteenVariety =>
        case RoomCondition => case HostelFood => case HostelCleanliness => case HostelStaff =>
        case Comments =>
      }
    }
  }

  /** The initial (and reset) text fields: all empty. */
  function BlankValues(): (values: map<GField, string>)
    ensures Complete(values) && forall f :: values[f] == ""
  {
    AllFieldsListed();
    map f | f in AllFields :: ""
  }

  /** Every field of `fields` holds a non-empty rating. */
  predicate Rated(values: map<GField, string>, fields: seq<GField>)
    requires Complete(values)
  {
    forall i :: 0 <= i < |fields| ==> values[fields[i]] != ""
  }

  /** The ratings `validateForm` demands: those of the active tab, and for the
      hostel tab only when the student is a hosteler. */
  function RequiredRatings(isHosteler: bool, tab: Tab): (fields: seq<GField>)
    ensures tab == Facilities ==> fields == FacilityFields
    ensures tab == Canteen ==> fields == CanteenFields
    ensures tab == Hostel ==> fields == (if isHosteler then HostelFields else [])
  {
    match tab
    case Facilities => FacilityFields
    case Canteen => CanteenFields
    case Hostel => if isHosteler then HostelFields else []
  }

  /** The message of the first check that fails, in the order student ID
      (trimmed), department, year, then the active tab's ratings. */
  function ValidationError(values: map<GField, string>, isHosteler: bool, tab: Tab): (e: Option<string>)
    requires Complete(values)
  {
    if Trim(values[StudentId]) == "" then Some(StudentIdMissing)
    else if values[Department] == "" then Some(DepartmentMissing)
    else if values[Year] == "" then Some(YearMissing)
    else if tab == Facilities && !Rated(values, FacilityFields) then Some(FacilitiesIncomplete)
    else if tab == Canteen && !Rated(values, CanteenFields) then Some(CanteenIncomplete)
    else if isHosteler && tab == Hostel && !Rated(values, HostelFields) then Some(HostelIncomplete)
    else None
  }

  /** The form passes exactly when the student ID has a non-space character, a
      department and a year are chosen, and every rating the active tab requires
      is given. */
  lemma ValidationPasses(values: map<GField, string>, isHosteler: bool, tab: Tab)
    requires Complete(values)
    ensures ValidationError(values, isHosteler, tab) == None <==>
      (!AllWhitespace(values[StudentId]) && values[Department] != "" && values[Year] != ""
       && Rated(values, RequiredRatings(isHosteler, tab)))
  {
    var header := !AllWhitespace(values[StudentId]) && values[Department] != "" && values[Year] != "";
    assert Trim(values[StudentId]) == "" <==> AllWhitespace(values[StudentId]);
    if header {
      var req := RequiredRatings(isHosteler, tab);
      match tab {
        case Facilities =>
          assert ValidationError(values, isHosteler, tab) == if Rated(values, req) then None else Some(FacilitiesIncomplete);
        case Canteen =>
          assert ValidationError(values, isHosteler, tab) == if Rated(values, req) then None else Some(CanteenIncomplete);
        case Hostel =>
          if isHosteler {
            assert ValidationError(values, isHosteler, tab) == if Rated(values, req) then None else Some(HostelIncomplete);
          } else {
            assert Rated(values, req);
          }
      }
    }
  }

  /** Ratings outside the active tab's list never affect the verdict. */
  lemma OtherTabsIgnored(v1: map<GField, string>, v2: map<GField, string>, isHosteler: bool, tab: Tab)
    requires Complete(v1) && Complete(v2)
    requires v1[StudentId] == v2[StudentId] && v1[Department] == v2[Department] && v1[Year] == v2[Year]
    requires forall i :: 0 <= i < |RequiredRatings(isHosteler, tab)| ==>
      v1[RequiredRatings(isHosteler, tab)[i]] == v2[RequiredRatings(isHosteler, tab)[i]]
    ensures ValidationError(v1, isHosteler, tab) == ValidationError(v2, isHosteler, tab)
  {
    var req := RequiredRatings(isHosteler, tab);
    assert Rated(v1, req) <==> Rated(v2, req);
  }

  /** The first failing check wins: a blank student ID hides every later problem. */
  lemma StudentIdCheckedFirst(values: map<GField, string>, isHosteler: bool, tab: Tab)
    requires Complete(values) && AllWhitespace(values[StudentId])
    ensures ValidationError(values, isHosteler, tab) == Some(StudentIdMissing)
  {
  }

  /** The request body: `formData` with `isHosteler` replaced by the toggle's state. */
  datatype Submission = Submission(values: map<GField, string>, isHosteler: bool)

  class Form {
    var isHosteler: bool
    var activeTab: Tab
    var loading: bool
    var notification: Notice
    var values: map<GField, string>
    /** `formData.isHosteler`, kept apart from the toggle state `isHosteler`. */
    var formIsHosteler: bool

    /** Every field present; the two hosteler flags agree; the hostel tab is
        active only for a hosteler. */
    ghost predicate Valid()
      reads this
    {
      Complete(values) && formIsHosteler == isHosteler && (activeTab == Hostel ==> isHosteler)
    }

    constructor ()
      ensures Valid()
      ensures values == BlankValues() && !isHosteler && !formIsHosteler && activeTab == Facilities
      ensures !loading && notification == NoNotice
    {
      values := BlankValues();
      isHosteler, formIsHosteler := false, false;
      activeTab := Facilities;
      loading := false;
      notification := NoNotice;
    }

    /** `handleInputChange`: exactly the named field changes. */
    method HandleInputChange(field: GField, value: string)
      requires Valid()
      modifies this`values
      ensures Valid()
      ensures values == old(values)[field := value]
      ensures forall f :: f != field ==> values[f] == old(values)[f]
    {
      values := values[field := value];
    }

    /** `toggleHostelerStatus`: turning it off clears the four hostel ratings and
        shows the facilities tab; turning it on keeps every field and shows the
        hostel tab. */
    method ToggleHostelerStatus(status: bool)
      requires Valid()
      modifies this`isHosteler, this`formIsHosteler, this`values, this`activeTab
      ensures Valid()
      ensures isHosteler == status && formIsHosteler == status
      ensures activeTab == (if status then Hostel else Facilities)
      ensures status ==> values == old(values)
      ensures !status ==> forall f :: values[f] == (if f in HostelFields then "" else old(values)[f])
    {
      isHosteler := status;
      formIsHosteler := status;
      if !status {
        values := values[RoomCondition := ""][HostelFood := ""][HostelCleanliness := ""][HostelStaff := ""];
      }
      activeTab := if status then Hostel else Facilities;
    }

    /** A tab button; the hostel tab's button is only shown to hostelers. */
    method SelectTab(tab: Tab)
      requires Valid() && (tab == Hostel ==> isHosteler)
      modifies this`activeTab
      ensures Valid() && activeTab == tab
    {
      activeTab := tab;
    }

    /** The `for ... of` loop over one section's fields. */
    method AllRated(fields: seq<GField>) returns (complete: bool)
      requires Valid()
      ensures complete <==> Rated(values, fields)
    {
      var i := 0;
      while i < |fields|
        invariant 0 <= i <= |fields|
        invariant forall j :: 0 <= j < i ==> values[fields[j]] != ""
      {
        if values[fields[i]] == "" {
          return false;
        }
        i := i + 1;
      }
      return true;
    }

    /** `validateForm`: on the first failing check the error is shown and the
        form is refused; otherwise nothing changes. */
    method ValidateForm() returns (ok: bool)
      requires Valid()
      modifies this`notification
      ensures Valid()
      ensures ok <==> ValidationError(values, isHosteler, activeTab) == None
      ensures !ok ==> notification == Notice(Error, ValidationError(values, isHosteler, activeTab).value)
      ensures ok ==> notification == old(notification)
    {
      var failure: Option<string> := None;
      if Trim(values[StudentId]) == "" {
        failure := Some(StudentIdMissing);
      } else if values[Department] == "" {
        failure := Some(DepartmentMissing);
      } else if values[Year] == "" {
        failure := Some(YearMissing);
      } else {
        if activeTab == Facilities {
          var complete := AllRated(FacilityFields);
          if !complete {
            failure := Some(FacilitiesIncomplete);
          }
        }
        if failure.None? && activeTab == Canteen {
          var complete := AllRated(CanteenFields);
          if !complete {
            failure := Some(CanteenIncomplete);
          }
        }
        if failure.None? && isHosteler && activeTab == Hostel {
          var complete := AllRated(HostelFields);
          if !complete {
            failure := Some(HostelIncomplete);
          }
        }
      }
      if failure.Some? {
        notification := Notice(Error, failure.value);
        return false;
      }
      return true;
    }

    /** `resetForm`: every field empty, day scholar, facilities tab. */
    method ResetForm()
      requires Valid()
      modifies this`values, this`formIsHosteler, this`isHosteler, this`activeTab
      ensures Valid()
      ensures values == BlankValues() && !formIsHosteler && !isHosteler && activeTab == Facilities
    {
      values := BlankValues();
      formIsHosteler := false;
      isHosteler := false;
      activeTab := Facilities;
    }

    /** `handleSubmit`: a refused form sends nothing; otherwise the form is sent
        with loading set, then reset on success or kept on failure, and loading
        is cleared on every path. */
    method HandleSubmit(outcome: Outcome<()>) returns (request: Option<Submission>, loadingDuringRequest: bool)
      requires Valid()
      modifies this`values, this`formIsHosteler, this`isHosteler, this`activeTab, this`loading, this`notification
      ensures Valid()
      ensures ValidationError(old(values), old(isHosteler), old(activeTab)).Some? ==>
        request == None && notification == Notice(Error, ValidationError(old(values), old(isHosteler), old(activeTab)).value)
        && values == old(values) && isHosteler == old(isHosteler) && activeTab == old(activeTab)
        && loading == old(loading)
      ensures ValidationError(old(values), old(isHosteler), old(activeTab)).None? ==>
        request == Some(Submission(old(values), old(isHosteler))) && loadingDuringRequest && !loading
      ensures ValidationError(old(values), old(isHosteler), old(activeTab)).None? && outcome.Ok? ==>
        notification == Notice(Success, Submitted)
        && values == BlankValues() && !isHosteler && activeTab == Facilities
      ensures ValidationError(old(values), old(isHosteler), old(activeTab)).None? && !outcome.Ok? ==>
        notification == Notice(Error, SubmitFailed)
        && values == old(values) && isHosteler == old(isHosteler) && activeTab == old(activeTab)
    {
      var ok := ValidateForm();
      if !ok {
        return None, loading;
      }
      request, loadingDuringRequest := Send(outcome);
    }

    /** The request half of `handleSubmit`, once the form has been accepted. */
    method Send(outcome: Outcome<()>) returns (request: Option<Submission>, loadingDuringRequest: bool)
      requires Valid()
      modifies this`values, this`formIsHosteler, this`isHosteler, this`activeTab, this`loading, this`notification
      ensures Valid()
      ensures request == Some(Submission(old(values), old(isHosteler))) && loadingDuringRequest && !loading
      ensures outcome.Ok? ==>
        notification == Notice(Success, Submitted)
        && values == BlankValues() && !isHosteler && activeTab == Facilities
      ensures !outcome.Ok? ==>
        notification == Notice(Error, SubmitFailed)
        && values == old(values) && isHosteler == old(isHosteler) && activeTab == old(activeTab)
    {
      loading := true;
      request := Some(Submission(values, isHosteler));
      loadingDuringRequest := loading;
      if outcome.Ok? {
        notification := Notice(Success, Submitted);
        ResetForm();
      } else {
        notification := Notice(Error, SubmitFailed);
      }
      loading := false;
    }
  }
}
