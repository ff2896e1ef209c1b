/**
 * The hostel data entry form: eight text fields, a guard on the three identity
 * fields (checked untrimmed), a submission that always declares a hosteler,
 * and reset on success.
 */
module HostelDataEntry {
  import opened Common

  datatype HField = StudentId | Department | Year | RoomCondition | HostelFood | HostelCleanliness | HostelStaff | Comments

  const AllFields: set<HField> :=
    {StudentId, Department, Year, RoomCondition, HostelFood, HostelCleanliness, HostelStaff, Comments}

  const RequiredMissing := "Please fill in all required fields"
  const Submitted := "Hostel data submitted successfully!"
  const SubmitFailed := "Unable to submit hostel data. Please try again."

  lemma AllFieldsListed()
    ensures forall f: HField :: f in AllFields
  {
    forall f: HField ensures f in AllFields {
      match f {
        case StudentId => case Department => case Year => case RoomCondition =>
        case HostelFood => case HostelCleanliness => case HostelStaff => case Comments =>
      }
    }
  }

  predicate Complete(values: map<HField, string>)
  {
    forall f: HField :: f in values
  }

  function BlankValues(): (values: map<HField, string>)
    ensures Complete(values) && forall f :: values[f] == ""
  {
    AllFieldsListed();
    map f | f in AllFields :: ""
  }

  /** The guard: student ID, department and year are non-empty; the ratings and
      comments are optional and no trimming happens. */
  predicate RequiredGiven(values: map<HField, string>)
    requires Complete(values)
  {
    values[StudentId] != "" && values[Department] != "" && values[Year] != ""
  }

  /** Unlike the general feedback form, a student ID of spaces passes, and the
      ratings may all be empty. */
  lemma SpacesPassTheGuard(values: map<HField, string>)
    requires Complete(values) && values[StudentId] == " " && values[Department] != "" && values[Year] != ""
    ensures RequiredGiven(values)
  {
  }

  /** The request body: the form's fields plus `isHosteler`. */
  datatype HostelSubmission = HostelSubmission(values: map<HField, string>, isHosteler: bool)

  class Entry {
    var notification: Notice
    var values: map<HField, string>

    constructor ()
      ensures Complete(values) && values == BlankValues() && notification == NoNotice
    {
      values := BlankValues();
      notification := NoNotice;
    }

    method HandleInputChange(field: HField, value: string)
      requires Complete(values)
      modifies this`values
      ensures Complete(values)
      ensures values == old(values)[field := value]
      ensures forall f :: f != field ==> values[f] == old(values)[f]
    {
      values := values[field := value];
    }

    /** `handleSubmit`: refused without the three identity fields; otherwise
        sent with `isHosteler` forced to true, then reset on success and kept
        on failure. */
    method HandleSubmit(outcome: Outcome<()>) returns (request: Option<HostelSubmission>)
      requires Complete(values)
      modifies this`values, this`notification
      ensures Complete(values)
      ensures !RequiredGiven(old(values)) ==>
        request == None && notification == Notice(Error, RequiredMissing) && values == old(values)
      ensures RequiredGiven(old(values)) ==>
        request == Some(HostelSubmission(old(values), true))
      ensures RequiredGiven(old(values)) && outcome.Ok? ==>
        notification == Notice(Success, Submitted) && values == BlankValues()
      ensures RequiredGiven(old(values)) && !outcome.Ok? ==>
        notification == Notice(Error, SubmitFailed) && values == old(values)
    {
      if values[StudentId] == "" || values[Department] == "" || values[Year] == "" {
        notification := Notice(Error, RequiredMissing);
        return None;
      }
      request := Some(HostelSubmission(values, true));
      if outcome.Ok? {
        notification := Notice(Success, Submitted);
        values := BlankValues();
      } else {
        notification := Notice(Error, SubmitFailed);
      }
    }
  }
}
